/**
  Writing a contract and reading it back. Every list of recordable topics, section by section, is what
  some contract loads to, with each profile and strategy as it was written.
 */
module ContractRoundTrip {
  import opened RecorderTypes
  import opened ContractLoader
  import BagDirectory

  // ---------- Writing ----------

  function StrategyName(s: Strategy): string {
    match s
    case NoBuffer => "no_buffer"
    case Accumulate => "accumulate"
    case ResubscribeOnStart => "resubscribe_on_start"
  }

  function Text(s: string): Node {
    Scalar(s, None, None)
  }

  function QosTree(q: Qos): Node
    requires 1 <= q.depth < 0x8000_0000
  {
    Mapping(map[
      "reliability" := Text(if q.reliable then "reliable" else "best_effort"),
      "history" := Text(if q.keepLast then "keep_last" else "keep_all"),
      "durability" := Text(if q.transientLocal then "transient_local" else "volatile"),
      "depth" := Scalar(BagDirectory.Decimal(q.depth), Some(q.depth), Some(q.depth as real))])
  }

  function TopicTree(t: RecordTopic): Node
    requires Recordable(t)
  {
    Mapping(map["topic" := Text(t.topic), "type" := Text(t.typ), "qos" := QosTree(t.qos)])
  }

  /** What a contract can say of a topic: liveliness is never its to choose, buffering only an adjunct's. */
  predicate Expressible(section: Section, t: RecordTopic) {
    Recordable(t) && t.qos.liveliness == SYSTEM_DEFAULT && (t.strategy != NoBuffer ==> section.Adjunct?)
  }

  function ItemTree(section: Section, t: RecordTopic): Node
    requires Expressible(section, t)
  {
    match section
    case Adjunct => Mapping(TopicTree(t).entries["buffering_strategy" := Text(StrategyName(t.strategy))])
    case Actions => Mapping(map["publish" := TopicTree(t)])
    case _ => TopicTree(t)
  }

  function ListTree(section: Section, topics: seq<RecordTopic>): Node
    requires forall i :: 0 <= i < |topics| ==> Expressible(section, topics[i])
  {
    Sequence(seq(|topics|, i requires 0 <= i < |topics| => ItemTree(section, topics[i])))
  }

  predicate AllExpressible(lists: seq<seq<RecordTopic>>) {
    |lists| == |SECTIONS| && forall k, i ::
      0 <= k < |lists| && 0 <= i < |lists[k]| ==> Expressible(SECTIONS[k], lists[k][i])
  }

  /** Everything of a contract but its topics. */
  datatype Head = Head(robotType: string, fps: Int32, maxDuration: real, storage: string)

  /** The digits of a decimal are not spelled out; only its value is read. */
  function HeadEntries(h: Head): map<string, Node>
    requires h.fps > 0
  {
    map["robot_type" := Text(h.robotType),
        "fps" := Scalar(BagDirectory.Decimal(h.fps), Some(h.fps), Some(h.fps as real)),
        "max_duration_s" := Scalar("", None, Some(h.maxDuration)),
        "recording" := Mapping(map["storage" := Text(h.storage)])]
  }

  function Entries(head: map<string, Node>, lists: seq<seq<RecordTopic>>, n: nat): map<string, Node>
    requires AllExpressible(lists) && n <= |SECTIONS|
  {
    if n == 0 then head
    else Entries(head, lists, n - 1)[KeyOf(SECTIONS[n - 1]) := ListTree(SECTIONS[n - 1], lists[n - 1])]
  }

  function ContractTree(h: Head, lists: seq<seq<RecordTopic>>): Node
    requires h.fps > 0 && AllExpressible(lists)
  {
    Mapping(Entries(HeadEntries(h), lists, |SECTIONS|))
  }

  function Concat(lists: seq<seq<RecordTopic>>, n: nat): seq<RecordTopic>
    requires n <= |lists|
  {
    if n == 0 then [] else Concat(lists, n - 1) + lists[n - 1]
  }

  // ---------- Words ----------

  predicate IsWord(s: string) {
    s != [] && forall i :: 0 <= i < |s| ==> !IsBlank(s[i]) && !('A' <= s[i] <= 'Z')
  }

  lemma WordUnchanged(s: string)
    requires IsWord(s)
    ensures LowerTrim(s) == s
  {
    assert TrimLeft(s) == s && TrimRight(s) == s;
  }

  lemma ReliabilityWords()
    ensures IsWord("reliable") && IsWord("best_effort")
  {
  }

  lemma HistoryWords()
    ensures IsWord("keep_last") && IsWord("keep_all")
  {
  }

  lemma DurabilityWords()
    ensures IsWord("volatile") && IsWord("transient_local")
  {
  }

  lemma StrategyIsWord(s: Strategy)
    ensures IsWord(StrategyName(s))
  {
  }

  lemma StrategyReadBack(s: Strategy)
    ensures ParseStrategy(LowerTrim(StrategyName(s))) == Some(s)
  {
    StrategyIsWord(s);
    WordUnchanged(StrategyName(s));
  }

  // ---------- Reading back ----------

  lemma WordReadBack(n: Node, key: string, word: string, fallback: string)
    requires n.Mapping? && key in n.entries && n.entries[key] == Text(word) && IsWord(word)
    ensures LowerTrim(AsString(Get(n, key), fallback)) == word
  {
    WordUnchanged(word);
  }

  lemma QosReadBack(q: Qos)
    requires 1 <= q.depth < 0x8000_0000
    ensures ParseQos(QosTree(q)) == q.(liveliness := SYSTEM_DEFAULT)
  {
    PoliciesReadBack(q, QosTree(q));
    DepthReadBack(q, QosTree(q));
  }

  lemma DepthReadBack(q: Qos, n: Node)
    requires 1 <= q.depth < 0x8000_0000 && n == QosTree(q)
    ensures n.Mapping? && "depth" in n.entries && Get(n, "depth").number == Some(q.depth) && Get(n, "depth").Scalar?
  {
  }

  lemma PoliciesReadBack(q: Qos, n: Node)
    requires 1 <= q.depth < 0x8000_0000 && n == QosTree(q)
    ensures LowerTrim(AsString(Get(n, "reliability"), "reliable")) == if q.reliable then "reliable" else "best_effort"
    ensures LowerTrim(AsString(Get(n, "history"), "keep_last")) == if q.keepLast then "keep_last" else "keep_all"
    ensures LowerTrim(AsString(Get(n, "durability"), "volatile"))
         == if q.transientLocal then "transient_local" else "volatile"
  {
    ReliabilityWords();
    HistoryWords();
    DurabilityWords();
    WordReadBack(n, "reliability", if q.reliable then "reliable" else "best_effort", "reliable");
    WordReadBack(n, "history", if q.keepLast then "keep_last" else "keep_all", "keep_last");
    WordReadBack(n, "durability", if q.transientLocal then "transient_local" else "volatile", "volatile");
  }

  lemma TopicReadBack(t: RecordTopic, n: Node)
    requires Recordable(t) && n.Mapping? && t.qos.liveliness == SYSTEM_DEFAULT
    requires Get(n, "topic") == Text(t.topic) && Get(n, "type") == Text(t.typ) && Get(n, "qos") == QosTree(t.qos)
    ensures ParseTopic(n) == Ok(t.(strategy := NoBuffer))
  {
    QosReadBack(t.qos);
  }

  lemma ChosenReadBack(n: Node, t: RecordTopic, s: Strategy)
    requires n.Mapping? && ParseTopic(n) == Ok(t) && Get(n, "buffering_strategy") == Text(StrategyName(s))
    requires s != NoBuffer ==> t.qos.transientLocal
    ensures ParseAdjunct(n) == Ok(t.(strategy := s))
  {
    StrategyReadBack(s);
  }

  lemma AdjunctReadBack(t: RecordTopic)
    requires Expressible(Adjunct, t)
    ensures ParseAdjunct(ItemTree(Adjunct, t)) == Ok(t)
  {
    var n := ItemTree(Adjunct, t);
    TopicReadBack(t, n);
    ChosenReadBack(n, t.(strategy := NoBuffer), t.strategy);
  }

  lemma ItemReadBack(section: Section, t: RecordTopic)
    requires Expressible(section, t)
    ensures ParseItem(section, ItemTree(section, t)) == Ok(t)
  {
    match section
    case Actions => TopicReadBack(t, Get(ItemTree(section, t), "publish"));
    case Adjunct => AdjunctReadBack(t);
    case _ => TopicReadBack(t, ItemTree(section, t));
  }

  lemma ResultReadBack(section: Section, topics: seq<RecordTopic>, i: nat)
    requires (forall k :: 0 <= k < |topics| ==> Expressible(section, topics[k])) && i < |topics|
    ensures Results(section, ListTree(section, topics).items)[i] == Ok(topics[i])
  {
    ItemReadBack(section, topics[i]);
  }

  lemma ListReadBack(section: Section, topics: seq<RecordTopic>)
    requires forall i :: 0 <= i < |topics| ==> Expressible(section, topics[i])
    ensures Parsed(section, ListTree(section, topics)) == Ok(topics)
  {
    var results := Results(section, ListTree(section, topics).items);
    forall i | 0 <= i < |topics| ensures results[i] == Ok(topics[i]) {
      ResultReadBack(section, topics, i);
    }
    Gathered(section, results);
    assert Gather(section, results).value == topics;
  }

  lemma KeysDiffer(a: Section, b: Section)
    ensures KeyOf(a) == KeyOf(b) ==> a == b
  {
  }

  lemma NewKey(n: nat)
    requires n < |SECTIONS|
    ensures forall k :: 0 <= k < n ==> KeyOf(SECTIONS[k]) != KeyOf(SECTIONS[n])
  {
    forall k | 0 <= k < n ensures KeyOf(SECTIONS[k]) != KeyOf(SECTIONS[n]) {
      KeysDiffer(SECTIONS[k], SECTIONS[n]);
    }
  }

  lemma HeadKeys(h: Head, section: Section)
    requires h.fps > 0
    ensures KeyOf(section) !in HeadEntries(h)
  {
  }

  lemma {:induction false} EntriesKeepHead(head: map<string, Node>, lists: seq<seq<RecordTopic>>, n: nat)
    requires AllExpressible(lists) && n <= |SECTIONS|
    requires forall section :: KeyOf(section) !in head
    ensures forall key :: key in head ==> key in Entries(head, lists, n) && Entries(head, lists, n)[key] == head[key]
  {
    if n > 0 {
      EntriesKeepHead(head, lists, n - 1);
      assert KeyOf(SECTIONS[n - 1]) !in head;
    }
  }

  lemma {:induction false} EntryHolds(head: map<string, Node>, lists: seq<seq<RecordTopic>>, n: nat, k: nat)
    requires AllExpressible(lists) && k < n <= |SECTIONS|
    ensures KeyOf(SECTIONS[k]) in Entries(head, lists, n)
    ensures Entries(head, lists, n)[KeyOf(SECTIONS[k])] == ListTree(SECTIONS[k], lists[k])
    decreases n
  {
    if k < n - 1 {
      EntryHolds(head, lists, n - 1, k);
      NewKey(n - 1);
    }
  }

  lemma EntriesHold(head: map<string, Node>, lists: seq<seq<RecordTopic>>, n: nat)
    requires AllExpressible(lists) && n <= |SECTIONS|
    ensures forall k :: 0 <= k < n ==>
      && KeyOf(SECTIONS[k]) in Entries(head, lists, n)
      && Entries(head, lists, n)[KeyOf(SECTIONS[k])] == ListTree(SECTIONS[k], lists[k])
  {
    forall k | 0 <= k < n
      ensures KeyOf(SECTIONS[k]) in Entries(head, lists, n)
      ensures Entries(head, lists, n)[KeyOf(SECTIONS[k])] == ListTree(SECTIONS[k], lists[k])
    {
      EntryHolds(head, lists, n, k);
    }
  }

  lemma TreeHolds(h: Head, lists: seq<seq<RecordTopic>>)
    requires h.fps > 0 && AllExpressible(lists)
    ensures var entries := ContractTree(h, lists).entries;
      && (forall key :: key in HeadEntries(h) ==> key in entries && entries[key] == HeadEntries(h)[key])
      && forall k :: 0 <= k < |SECTIONS| ==>
        KeyOf(SECTIONS[k]) in entries && entries[KeyOf(SECTIONS[k])] == ListTree(SECTIONS[k], lists[k])
  {
    forall section: Section ensures KeyOf(section) !in HeadEntries(h) {
      HeadKeys(h, section);
    }
    EntriesKeepHead(HeadEntries(h), lists, |SECTIONS|);
    EntriesHold(HeadEntries(h), lists, |SECTIONS|);
  }

  lemma {:induction false} SectionsReadBack(h: Head, lists: seq<seq<RecordTopic>>, n: nat)
    requires h.fps > 0 && AllExpressible(lists) && n <= |SECTIONS|
    ensures ParsedSections(ContractTree(h, lists), n) == Ok(Concat(lists, n))
  {
    if n > 0 {
      SectionsReadBack(h, lists, n - 1);
      TreeHolds(h, lists);
      ListReadBack(SECTIONS[n - 1], lists[n - 1]);
    }
  }

  lemma HeadReadBack(h: Head, root: Node)
    requires h.fps > 0 && root.Mapping?
    requires forall key :: key in HeadEntries(h) ==> key in root.entries && root.entries[key] == HeadEntries(h)[key]
    ensures AsString(Get(root, "robot_type"), "") == h.robotType && AsInt(Get(root, "fps"), 30) == h.fps
    ensures AsReal(Get(root, "max_duration_s"), 30.0) == h.maxDuration && StorageOf(root) == h.storage
  {
    assert "robot_type" in HeadEntries(h) && "fps" in HeadEntries(h);
    assert "max_duration_s" in HeadEntries(h) && "recording" in HeadEntries(h);
  }

  /** A written contract loads to what it was written from, its topics in section order. */
  lemma ContractReadBack(h: Head, lists: seq<seq<RecordTopic>>)
    requires h.fps > 0 && h.robotType != "" && AllExpressible(lists)
    ensures LoadContract(ContractTree(h, lists))
         == Ok(Contract(h.robotType, h.fps, h.maxDuration, h.storage, Concat(lists, |SECTIONS|)))
  {
    TreeHolds(h, lists);
    HeadReadBack(h, ContractTree(h, lists));
    SectionsReadBack(h, lists, |SECTIONS|);
  }
}
