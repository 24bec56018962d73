/**
  The topic table: a vector of topics, and an index map that must agree with it while the
  subscription callbacks hold positions of that vector.
 */
module TopicTable {
  import opened RecorderTypes

  datatype Table = Table(topics: seq<TopicState>, index: map<string, nat>)

  const EMPTY: Table := Table([], map[])

  // ---------- Building, discovering and destroying topics ----------

  function NewTopic(spec: RecordTopic, position: nat, discovered: bool): TopicState {
    TopicState(spec, Subscription(position, spec.topic), [], 0, discovered, [])
  }

  function AddTopic(t: Table, spec: RecordTopic, discovered: bool): Table {
    if spec.topic in t.index then t
    else Table(t.topics + [NewTopic(spec, |t.topics|, discovered)], t.index[spec.topic := |t.topics|])
  }

  function AddAll(t: Table, specs: seq<RecordTopic>, discovered: bool): Table
    decreases |specs|
  {
    if specs == [] then t
    else AddTopic(AddAll(t, specs[..|specs| - 1], discovered), specs[|specs| - 1], discovered)
  }

  /** A topic found on the graph: whatever its profile, it is never buffered. */
  function Unbuffered(spec: RecordTopic): RecordTopic {
    spec.(strategy := NoBuffer)
  }

  function UnbufferedAll(found: seq<RecordTopic>): seq<RecordTopic> {
    seq(|found|, i requires 0 <= i < |found| => Unbuffered(found[i]))
  }

  function Discover(t: Table, found: seq<RecordTopic>): Table {
    AddAll(t, UnbufferedAll(found), true)
  }

  function Keep(topics: seq<TopicState>): seq<TopicState>
    decreases |topics|
  {
    if topics == [] then []
    else
      var last := topics[|topics| - 1];
      Keep(topics[..|topics| - 1]) + (if last.discovered then [] else [last])
  }

  function Reindex(topics: seq<TopicState>): map<string, nat>
    decreases |topics|
  {
    if topics == [] then map[]
    else Reindex(topics[..|topics| - 1])[topics[|topics| - 1].spec.topic := |topics| - 1]
  }

  function DestroyDiscovered(t: Table): Table {
    Table(Keep(t.topics), Reindex(Keep(t.topics)))
  }

  // ---------- The table invariant ----------

  /** Names are distinct, the index is the inverse of positions, and callbacks hold their own position. */
  predicate Indexed(t: Table) {
    && (forall i :: 0 <= i < |t.topics| ==>
      && t.topics[i].spec.topic in t.index
      && t.index[t.topics[i].spec.topic] == i
      && t.topics[i].sub == Subscription(i, t.topics[i].spec.topic))
    && (forall name :: name in t.index ==>
      t.index[name] < |t.topics| && t.topics[t.index[name]].spec.topic == name)
  }

  predicate DiscoveredSuffix(topics: seq<TopicState>) {
    forall i, j :: 0 <= i < j < |topics| && topics[i].discovered ==> topics[j].discovered
  }

  /** What every accepted contract promises of a topic; a depth is a 32-bit int. */
  predicate ContractTopic(spec: RecordTopic) {
    1 <= spec.qos.depth < 0x8000_0000 && (spec.strategy != NoBuffer ==> spec.qos.transientLocal)
  }

  predicate SpecsOk(topics: seq<TopicState>) {
    forall i :: 0 <= i < |topics| ==>
      if topics[i].discovered then topics[i].spec.strategy == NoBuffer else ContractTopic(topics[i].spec)
  }

  predicate ValidTable(t: Table) {
    Indexed(t) && DiscoveredSuffix(t.topics) && SpecsOk(t.topics)
  }

  /** The topics named by the contract: everything before the first discovered one. */
  function ContractCount(topics: seq<TopicState>): (n: nat)
    ensures n <= |topics|
    ensures forall i :: 0 <= i < n ==> !topics[i].discovered
    ensures n < |topics| ==> topics[n].discovered
  {
    if topics == [] || topics[0].discovered then 0 else 1 + ContractCount(topics[1..])
  }

  lemma AddTopicIndexed(t: Table, spec: RecordTopic, discovered: bool)
    requires Indexed(t)
    ensures Indexed(AddTopic(t, spec, discovered))
  {
  }

  lemma AddTopicValid(t: Table, spec: RecordTopic, discovered: bool)
    requires ValidTable(t)
    requires if discovered then spec.strategy == NoBuffer else ContractTopic(spec)
    requires !discovered ==> forall i :: 0 <= i < |t.topics| ==> !t.topics[i].discovered
    ensures ValidTable(AddTopic(t, spec, discovered))
    ensures !discovered ==> forall i :: 0 <= i < |AddTopic(t, spec, discovered).topics| ==>
      !AddTopic(t, spec, discovered).topics[i].discovered
  {
    AddTopicIndexed(t, spec, discovered);
  }

  lemma {:induction false} AddAllValid(t: Table, specs: seq<RecordTopic>, discovered: bool)
    requires ValidTable(t)
    requires forall i :: 0 <= i < |specs| ==>
      if discovered then specs[i].strategy == NoBuffer else ContractTopic(specs[i])
    requires !discovered ==> forall i :: 0 <= i < |t.topics| ==> !t.topics[i].discovered
    ensures ValidTable(AddAll(t, specs, discovered))
    ensures !discovered ==> forall i :: 0 <= i < |AddAll(t, specs, discovered).topics| ==>
      !AddAll(t, specs, discovered).topics[i].discovered
    decreases |specs|
  {
    if specs != [] {
      AddAllValid(t, specs[..|specs| - 1], discovered);
      AddTopicValid(AddAll(t, specs[..|specs| - 1], discovered), specs[|specs| - 1], discovered);
    }
  }

  lemma {:induction false} AddAllExtends(t: Table, specs: seq<RecordTopic>, discovered: bool)
    ensures t.topics <= AddAll(t, specs, discovered).topics
    ensures forall i :: |t.topics| <= i < |AddAll(t, specs, discovered).topics| ==>
      var topic := AddAll(t, specs, discovered).topics[i];
      topic.buffer == [] && topic.seen == [] && topic.written == 0 && topic.discovered == discovered
    decreases |specs|
  {
    if specs != [] {
      AddAllExtends(t, specs[..|specs| - 1], discovered);
    }
  }

  /** Discovery appends, so every position a callback already holds still names the same topic. */
  lemma DiscoverValid(t: Table, found: seq<RecordTopic>)
    requires ValidTable(t)
    ensures ValidTable(Discover(t, found)) && t.topics <= Discover(t, found).topics
  {
    AddAllValid(t, UnbufferedAll(found), true);
    AddAllExtends(t, UnbufferedAll(found), true);
  }

  lemma {:induction false} AddAllAdds(t: Table, specs: seq<RecordTopic>, discovered: bool)
    ensures var d := AddAll(t, specs, discovered);
      && (forall i :: |t.topics| <= i < |d.topics| ==> d.topics[i].spec in specs)
      && (forall name :: name in t.index ==> name in d.index)
      && forall k :: 0 <= k < |specs| ==> specs[k].topic in d.index
    decreases |specs|
  {
    if specs != [] {
      var front, last := specs[..|specs| - 1], specs[|specs| - 1];
      AddAllAdds(t, front, discovered);
      assert forall k :: 0 <= k < |front| ==> specs[k] == front[k];
      assert forall x :: x in front ==> x in specs;
    }
  }

  /**
    Discovery adds what it found and nothing else: each new topic has the name, type and profile of a topic
    found, and is neither buffered nor part of the contract; and no name found is missing afterwards.
   */
  lemma DiscoverAdds(t: Table, found: seq<RecordTopic>)
    ensures var d := Discover(t, found);
      && t.topics <= d.topics
      && (forall i :: |t.topics| <= i < |d.topics| ==>
        && d.topics[i].discovered && d.topics[i].spec.strategy.NoBuffer? && d.topics[i].buffer == []
        && exists k :: 0 <= k < |found| && d.topics[i].spec == found[k].(strategy := NoBuffer))
      && forall k :: 0 <= k < |found| ==> found[k].topic in d.index
  {
    var d, specs := Discover(t, found), UnbufferedAll(found);
    AddAllExtends(t, specs, true);
    AddAllAdds(t, specs, true);
    forall i | |t.topics| <= i < |d.topics|
      ensures exists k :: 0 <= k < |found| && d.topics[i].spec == found[k].(strategy := NoBuffer)
    {
      var k :| 0 <= k < |specs| && specs[k] == d.topics[i].spec;
      assert specs[k] == found[k].(strategy := NoBuffer);
    }
    forall k | 0 <= k < |found| ensures found[k].topic in d.index {
      assert specs[k].topic == found[k].topic;
    }
  }

  lemma {:induction false} CountOfAppend(topics: seq<TopicState>, last: TopicState)
    ensures ContractCount(topics + [last]) ==
      if ContractCount(topics) < |topics| then ContractCount(topics)
      else |topics| + (if last.discovered then 0 else 1)
  {
    if topics != [] {
      CountOfAppend(topics[1..], last);
      assert (topics + [last])[1..] == topics[1..] + [last];
    }
  }

  lemma {:induction false} KeepIsPrefix(topics: seq<TopicState>)
    requires DiscoveredSuffix(topics)
    ensures Keep(topics) == topics[..ContractCount(topics)]
    decreases |topics|
  {
    if topics != [] {
      var front, last := topics[..|topics| - 1], topics[|topics| - 1];
      KeepIsPrefix(front);
      CountOfAppend(front, last);
      assert topics == front + [last];
      assert ContractCount(front) < |front| ==> topics[ContractCount(front)].discovered;
    }
  }

  lemma {:induction false} ReindexInverse(topics: seq<TopicState>)
    requires forall i, j :: 0 <= i < j < |topics| ==> topics[i].spec.topic != topics[j].spec.topic
    ensures forall i :: 0 <= i < |topics| ==>
      topics[i].spec.topic in Reindex(topics) && Reindex(topics)[topics[i].spec.topic] == i
    ensures forall name :: name in Reindex(topics) ==>
      Reindex(topics)[name] < |topics| && topics[Reindex(topics)[name]].spec.topic == name
    decreases |topics|
  {
    if topics != [] {
      var front := topics[..|topics| - 1];
      ReindexInverse(front);
    }
  }

  lemma PrefixDistinct(t: Table, n: nat)
    requires Indexed(t) && n <= |t.topics|
    ensures forall i, j :: 0 <= i < j < n ==>
      t.topics[..n][i].spec.topic != t.topics[..n][j].spec.topic
  {
    forall i, j | 0 <= i < j < n ensures t.topics[i].spec.topic != t.topics[j].spec.topic {
      assert t.index[t.topics[i].spec.topic] == i && t.index[t.topics[j].spec.topic] == j;
    }
  }

  lemma PrefixIndexed(t: Table, n: nat)
    requires Indexed(t) && n <= |t.topics|
    ensures Indexed(Table(t.topics[..n], Reindex(t.topics[..n])))
  {
    PrefixDistinct(t, n);
    ReindexInverse(t.topics[..n]);
    forall i | 0 <= i < n ensures t.topics[..n][i].sub == Subscription(i, t.topics[..n][i].spec.topic) {
      assert t.topics[..n][i] == t.topics[i];
    }
  }

  lemma PrefixValid(t: Table, n: nat)
    requires ValidTable(t) && n <= |t.topics|
    ensures ValidTable(Table(t.topics[..n], Reindex(t.topics[..n])))
  {
    PrefixIndexed(t, n);
    assert forall i :: 0 <= i < n ==> t.topics[..n][i] == t.topics[i];
  }

  /** Destroying the discovered topics leaves exactly the contract prefix, its callbacks still right. */
  lemma DestroyRestoresContract(t: Table)
    requires ValidTable(t)
    ensures DestroyDiscovered(t).topics == t.topics[..ContractCount(t.topics)]
    ensures ValidTable(DestroyDiscovered(t))
    ensures forall i :: 0 <= i < |DestroyDiscovered(t).topics| ==> !DestroyDiscovered(t).topics[i].discovered
  {
    KeepIsPrefix(t.topics);
    PrefixValid(t, ContractCount(t.topics));
  }

  lemma IndexIsUnique(a: Table, b: Table)
    requires Indexed(a) && Indexed(b) && a.topics == b.topics
    ensures a == b
  {
    forall name | name in a.index || name in b.index
      ensures name in a.index && name in b.index && a.index[name] == b.index[name]
    {
      assert name in a.index ==> a.topics[a.index[name]].spec.topic == name;
      assert name in b.index ==> b.topics[b.index[name]].spec.topic == name;
    }
    assert a.index == b.index;
  }

  lemma CountIs(topics: seq<TopicState>, n: nat)
    requires n <= |topics| && forall i :: 0 <= i < n ==> !topics[i].discovered
    requires n < |topics| ==> topics[n].discovered
    ensures ContractCount(topics) == n
  {
    var c := ContractCount(topics);
    assert n < |topics| ==> topics[n].discovered;
    assert c < |topics| ==> topics[c].discovered;
  }

  /** Whatever a start discovered is gone after the episode: destroy undoes discover. */
  lemma DestroyUndoesDiscover(t: Table, found: seq<RecordTopic>)
    requires ValidTable(t)
    requires forall i :: 0 <= i < |t.topics| ==> !t.topics[i].discovered
    ensures DestroyDiscovered(Discover(t, found)) == t
  {
    var d := Discover(t, found);
    DiscoverValid(t, found);
    AddAllExtends(t, UnbufferedAll(found), true);
    forall i | 0 <= i < |d.topics| ensures d.topics[i].discovered <==> |t.topics| <= i {
      assert i < |t.topics| ==> d.topics[i] == t.topics[i];
    }
    CountIs(d.topics, |t.topics|);
    DestroyRestoresContract(d);
    IndexIsUnique(DestroyDiscovered(d), t);
  }

  /** The reverse-erase loop, one topic at a time. */
  lemma {:induction false} KeepFirst(topics: seq<TopicState>)
    requires topics != []
    ensures Keep(topics) == (if topics[0].discovered then [] else [topics[0]]) + Keep(topics[1..])
    decreases |topics|
  {
    if |topics| > 1 {
      var front := topics[..|topics| - 1];
      KeepFirst(front);
      assert topics[1..][..|topics| - 2] == front[1..];
    }
  }

  /** One turn of that loop: topics before `i` untouched, those from `i` on filtered. */
  lemma EraseNext(before: seq<TopicState>, topics: seq<TopicState>, i: nat)
    requires i < |before| && topics == before[..i + 1] + Keep(before[i + 1..])
    ensures topics[..i] + (if topics[i].discovered then [] else [topics[i]]) + topics[i + 1..]
         == before[..i] + Keep(before[i..])
  {
    KeepFirst(before[i..]);
    assert before[i..][1..] == before[i + 1..];
    assert topics[..i] == before[..i] && topics[i] == before[i] && topics[i + 1..] == Keep(before[i + 1..]);
  }

  /** What discovery's first pass leaves: the names the table does not have yet. */
  function NotYet(t: Table, graph: seq<RecordTopic>): seq<RecordTopic>
    decreases |graph|
  {
    if graph == [] then []
    else
      var last := graph[|graph| - 1];
      NotYet(t, graph[..|graph| - 1]) + (if last.topic in t.index then [] else [last])
  }

  /** Filtering first changes nothing: a name the table has is skipped again when topics are added. */
  lemma {:induction false} FilterChangesNothing(t: Table, graph: seq<RecordTopic>)
    ensures Discover(t, NotYet(t, graph)) == Discover(t, graph)
    ensures forall name :: name in t.index ==> name in Discover(t, graph).index
    decreases |graph|
  {
    if graph != [] {
      var front, last := graph[..|graph| - 1], graph[|graph| - 1];
      FilterChangesNothing(t, front);
      var all := UnbufferedAll(graph);
      assert all[..|front|] == UnbufferedAll(front) && all[|front|] == Unbuffered(last);
      assert last.topic in t.index ==> last.topic in Discover(t, front).index;
      if last.topic in t.index {
        assert NotYet(t, graph) == NotYet(t, front);
      } else {
        var kept := NotYet(t, graph);
        assert kept[..|kept| - 1] == NotYet(t, front);
        assert UnbufferedAll(kept)[..|kept| - 1] == UnbufferedAll(NotYet(t, front));
      }
    }
  }

  // ---------- Names ----------

  function Names(topics: seq<TopicState>): seq<string> {
    seq(|topics|, i requires 0 <= i < |topics| => topics[i].spec.topic)
  }

  predicate SameShape(a: seq<TopicState>, b: seq<TopicState>) {
    && |a| == |b|
    && forall i :: 0 <= i < |a| ==>
      a[i].spec == b[i].spec && a[i].sub == b[i].sub && a[i].discovered == b[i].discovered
  }

  lemma ShapeKeepsTable(a: Table, b: Table)
    requires SameShape(a.topics, b.topics) && a.index == b.index
    ensures ValidTable(a) ==> ValidTable(b)
    ensures Names(a.topics) == Names(b.topics)
  {
  }

  // ---------- Per-topic counters ----------

  function SumWritten(topics: seq<TopicState>): nat
    decreases |topics|
  {
    if topics == [] then 0 else SumWritten(topics[..|topics| - 1]) + topics[|topics| - 1].written
  }

  function CountOne(topics: seq<TopicState>, i: nat): seq<TopicState> {
    if i < |topics| then topics[i := topics[i].(written := topics[i].written + 1)] else topics
  }

  lemma {:induction false} SumCountOne(topics: seq<TopicState>, i: nat)
    requires i < |topics|
    ensures SumWritten(CountOne(topics, i)) == SumWritten(topics) + 1
    decreases |topics|
  {
    var n := |topics| - 1;
    var counted := CountOne(topics, i);
    if i < n {
      SumCountOne(topics[..n], i);
      assert counted[..n] == CountOne(topics[..n], i);
    } else {
      assert counted[..n] == topics[..n];
    }
  }

  /** The counters of the first `n` topics at zero. */
  function ResetWritten(topics: seq<TopicState>, n: nat): seq<TopicState> {
    seq(|topics|, i requires 0 <= i < |topics| => if i < n then topics[i].(written := 0) else topics[i])
  }

  lemma {:induction false} SumReset(topics: seq<TopicState>, n: nat)
    requires n >= |topics|
    ensures SumWritten(ResetWritten(topics, n)) == 0
    decreases |topics|
  {
    if topics != [] {
      SumReset(topics[..|topics| - 1], n);
      assert ResetWritten(topics, n)[..|topics| - 1] == ResetWritten(topics[..|topics| - 1], n);
    }
  }
}
