/** From a parsed YAML tree to the list of topics the recorder subscribes to, in bag order. */
module ContractLoader {
  import opened RecorderTypes
  import opened TopicTable

  // ---------- The tree ----------

  type Int32 = x: int | -0x8000_0000 <= x < 0x8000_0000

  /** A scalar keeps its text and, where that reads as one, its integer and its decimal value. */
  datatype Node =
    | Undefined
    | Null
    | Scalar(text: string, number: Option<Int32>, decimal: Option<real>)
    | Sequence(items: seq<Node>)
    | Mapping(entries: map<string, Node>)

  /** Looking a key up: absent keys are Undefined, and so is every key of a list or of null. */
  function Get(n: Node, key: string): Node {
    if n.Mapping? && key in n.entries then n.entries[key] else Undefined
  }

  function AsString(n: Node, fallback: string): string {
    if n.Scalar? then n.text else fallback
  }

  function AsInt(n: Node, fallback: Int32): Int32 {
    if n.Scalar? && n.number.Some? then n.number.value else fallback
  }

  function AsReal(n: Node, fallback: real): real {
    if n.Scalar? && n.decimal.Some? then n.decimal.value else fallback
  }

  // ---------- Results ----------

  datatype ItemError =
    | MustBeMapping
    | BadSubscript
    | Missing(field: string)
    | Empty(field: string)
    | UnknownStrategy
    | StrategyNeedsLatched

  datatype ContractError =
    | NotMapping
    | NoRobotType
    | FpsNotPositive
    | BadItem(section: Section, index: nat, why: ItemError)

  datatype Outcome<+T, +E> = Ok(value: T) | Error(error: E)

  datatype Section =
    | Observations | Actions | Rewards | Signals | Info | ComplementaryData | Tasks | Adjunct

  datatype Contract = Contract(
    robotType: string, fps: int, maxDuration: real, storage: string, topics: seq<RecordTopic>)

  // ---------- Scalars ----------

  predicate IsBlank(c: char) {
    c == ' ' || c == '\t' || c == '\r' || c == '\n'
  }

  function TrimLeft(s: string): string {
    if s != [] && IsBlank(s[0]) then TrimLeft(s[1..]) else s
  }

  function TrimRight(s: string): string
    decreases |s|
  {
    if s != [] && IsBlank(s[|s| - 1]) then TrimRight(s[..|s| - 1]) else s
  }

  function LowerTrim(s: string): string {
    var t := TrimRight(TrimLeft(s));
    seq(|t|, i requires 0 <= i < |t| => if 'A' <= t[i] <= 'Z' then t[i] - 'A' + 'a' else t[i])
  }

  function RequireStr(n: Node, field: string): Outcome<string, ItemError> {
    var v := Get(n, field);
    if n.Scalar? then Error(BadSubscript)
    else if v.Undefined? || v.Null? then Error(Missing(field))
    else if AsString(v, "") == "" then Error(Empty(field))
    else Ok(AsString(v, ""))
  }

  // ---------- Quality of service ----------

  const AUTOMATIC: int := 1
  const SYSTEM_DEFAULT: int := 0
  const DEFAULT_DEPTH: int := 10
  const BARE_QOS: Qos := Qos(DEFAULT_DEPTH, true, true, false, AUTOMATIC)

  function ParseQos(n: Node): Qos {
    if !n.Mapping? || |n.entries| == 0 then BARE_QOS
    else
      var depth := AsInt(Get(n, "depth"), DEFAULT_DEPTH);
      Qos(if depth <= 0 then DEFAULT_DEPTH else depth,
          LowerTrim(AsString(Get(n, "reliability"), "reliable")) != "best_effort",
          LowerTrim(AsString(Get(n, "history"), "keep_last")) != "keep_all",
          LowerTrim(AsString(Get(n, "durability"), "volatile")) == "transient_local",
          SYSTEM_DEFAULT)
  }

  // ---------- One item of a section ----------

  function ParseTopic(n: Node): Outcome<RecordTopic, ItemError> {
    var topic, typ := RequireStr(n, "topic"), RequireStr(n, "type");
    if topic.Error? then Error(topic.error)
    else if typ.Error? then Error(typ.error)
    else Ok(RecordTopic(topic.value, typ.value, ParseQos(Get(n, "qos")), NoBuffer))
  }

  /** The named strategies; anything else is refused. */
  function ParseStrategy(text: string): Option<Strategy> {
    if text == "no_buffer" then Some(NoBuffer)
    else if text == "accumulate" then Some(Accumulate)
    else if text == "resubscribe_on_start" then Some(ResubscribeOnStart)
    else None
  }

  function ParseAdjunct(n: Node): Outcome<RecordTopic, ItemError> {
    if !n.Mapping? then Error(MustBeMapping)
    else
      var parsed, chosen := ParseTopic(n), Get(n, "buffering_strategy");
      if parsed.Error? then parsed
      else
        var t := parsed.value;
        if chosen.Undefined? || chosen.Null? then
          Ok(t.(strategy := if t.qos.transientLocal then Accumulate else NoBuffer))
        else
          match ParseStrategy(LowerTrim(AsString(chosen, "")))
          case None => Error(UnknownStrategy)
          case Some(strategy) =>
            if strategy != NoBuffer && !t.qos.transientLocal then Error(StrategyNeedsLatched)
            else Ok(t.(strategy := strategy))
  }

  function ParseItem(section: Section, item: Node): Outcome<RecordTopic, ItemError> {
    match section
    case Tasks => ParseTopic(item)
    case Adjunct => ParseAdjunct(item)
    case Actions =>
      if !item.Mapping? || !Get(item, "publish").Mapping? then Error(MustBeMapping)
      else ParseTopic(Get(item, "publish"))
    case _ => if !item.Mapping? then Error(MustBeMapping) else ParseTopic(item)
  }

  // ---------- Sections ----------

  /** The order fixes the bag's topic ids. */
  const SECTIONS: seq<Section> :=
    [Observations, Actions, Rewards, Signals, Info, ComplementaryData, Tasks, Adjunct]

  function KeyOf(section: Section): string {
    match section
    case Observations => "observations"
    case Actions => "actions"
    case Rewards => "rewards"
    case Signals => "signals"
    case Info => "info"
    case ComplementaryData => "complementary_data"
    case Tasks => "tasks"
    case Adjunct => "adjunct"
  }

  /** What a section lists: not a list means nothing, except that adjunct may be a single item. */
  function ItemsOf(section: Section, n: Node): seq<Node> {
    if n.Sequence? then n.items
    else if section.Adjunct? && !n.Undefined? && !n.Null? then [n]
    else []
  }

  function Results(section: Section, items: seq<Node>): seq<Outcome<RecordTopic, ItemError>> {
    seq(|items|, i requires 0 <= i < |items| => ParseItem(section, items[i]))
  }

  /** All topics in order, or the first item that failed. */
  function Gather(section: Section, results: seq<Outcome<RecordTopic, ItemError>>)
    : Outcome<seq<RecordTopic>, ContractError>
    decreases |results|
  {
    if results == [] then Ok([])
    else
      var last := |results| - 1;
      var front := Gather(section, results[..last]);
      if front.Error? then front
      else if results[last].Error? then Error(BadItem(section, last, results[last].error))
      else Ok(front.value + [results[last].value])
  }

  function Parsed(section: Section, list: Node): Outcome<seq<RecordTopic>, ContractError> {
    Gather(section, Results(section, ItemsOf(section, list)))
  }

  function ParsedSections(root: Node, n: nat): Outcome<seq<RecordTopic>, ContractError>
    requires n <= |SECTIONS|
  {
    if n == 0 then Ok([])
    else
      var section := SECTIONS[n - 1];
      var front := ParsedSections(root, n - 1);
      var own := Parsed(section, Get(root, KeyOf(section)));
      if front.Error? then front else if own.Error? then own else Ok(front.value + own.value)
  }

  /** `recording.storage`, empty when unset. */
  function StorageOf(root: Node): string {
    AsString(Get(Get(root, "recording"), "storage"), "")
  }

  function LoadContract(root: Node): Outcome<Contract, ContractError> {
    if !root.Mapping? then Error(NotMapping)
    else if AsString(Get(root, "robot_type"), "") == "" then Error(NoRobotType)
    else if AsInt(Get(root, "fps"), 30) <= 0 then Error(FpsNotPositive)
    else
      var topics := ParsedSections(root, |SECTIONS|);
      if topics.Error? then Error(topics.error)
      else
        Ok(Contract(AsString(Get(root, "robot_type"), ""), AsInt(Get(root, "fps"), 30),
                    AsReal(Get(root, "max_duration_s"), 30.0), StorageOf(root), topics.value))
  }

  // ---------- The loops ----------

  lemma {:induction false} ErrorSticks(
    section: Section, results: seq<Outcome<RecordTopic, ItemError>>, n: nat)
    requires n <= |results| && Gather(section, results[..n]).Error?
    ensures Gather(section, results) == Gather(section, results[..n])
    decreases |results|
  {
    if n == |results| {
      assert results[..n] == results;
    } else {
      assert results[..|results| - 1][..n] == results[..n];
      ErrorSticks(section, results[..|results| - 1], n);
    }
  }

  lemma GatherNext(section: Section, results: seq<Outcome<RecordTopic, ItemError>>, n: nat)
    requires n < |results| && Gather(section, results[..n]).Ok?
    ensures Gather(section, results[..n + 1]) ==
      if results[n].Error? then Error(BadItem(section, n, results[n].error))
      else Ok(Gather(section, results[..n]).value + [results[n].value])
  {
    assert results[..n + 1][..n] == results[..n];
  }

  /** One collect loop: append each item's topic, stop at the first that does not parse. */
  method Collect(section: Section, items: seq<Node>, topics: seq<RecordTopic>)
    returns (out: Outcome<seq<RecordTopic>, ContractError>)
    ensures var own := Gather(section, Results(section, items));
      out == if own.Error? then own else Ok(topics + own.value)
  {
    ghost var results := Results(section, items);
    var collected := topics;
    var i := 0;
    while i < |items|
      invariant 0 <= i <= |items| && Gather(section, results[..i]).Ok?
      invariant collected == topics + Gather(section, results[..i]).value
    {
      GatherNext(section, results, i);
      var t := ParseItem(section, items[i]);
      if t.Error? {
        ErrorSticks(section, results, i + 1);
        return Error(BadItem(section, i, t.error));
      }
      collected := collected + [t.value];
      i := i + 1;
    }
    assert results[..i] == results;
    return Ok(collected);
  }

  /** A section that is not a list is skipped; a lone adjunct counts as a list of one. */
  method CollectSection(section: Section, list: Node, topics: seq<RecordTopic>)
    returns (out: Outcome<seq<RecordTopic>, ContractError>)
    ensures var own := Parsed(section, list);
      out == if own.Error? then own else Ok(topics + own.value)
  {
    if list.Sequence? {
      out := Collect(section, list.items, topics);
    } else if section.Adjunct? && !list.Undefined? && !list.Null? {
      out := Collect(section, [list], topics);
    } else {
      assert Results(section, []) == [] && topics + [] == topics;
      out := Ok(topics);
    }
  }

  lemma {:induction false} SectionErrorSticks(root: Node, n: nat, m: nat)
    requires n <= m <= |SECTIONS| && ParsedSections(root, n).Error?
    ensures ParsedSections(root, m) == ParsedSections(root, n)
  {
    if n < m {
      SectionErrorSticks(root, n, m - 1);
    }
  }

  /** All sections in bag order, up to the first item that does not parse. */
  method CollectSections(root: Node) returns (out: Outcome<seq<RecordTopic>, ContractError>)
    ensures out == ParsedSections(root, |SECTIONS|)
  {
    var topics: seq<RecordTopic> := [];
    var i := 0;
    while i < |SECTIONS|
      invariant 0 <= i <= |SECTIONS| && ParsedSections(root, i) == Ok(topics)
    {
      var collected := CollectSection(SECTIONS[i], Get(root, KeyOf(SECTIONS[i])), topics);
      if collected.Error? {
        SectionErrorSticks(root, i + 1, |SECTIONS|);
        return collected;
      }
      topics := collected.value;
      i := i + 1;
    }
    return Ok(topics);
  }

  method Load(root: Node) returns (out: Outcome<Contract, ContractError>)
    ensures out == LoadContract(root)
    ensures out.Ok? ==> forall i :: 0 <= i < |out.value.topics| ==> Recordable(out.value.topics[i])
  {
    if !root.Mapping? {
      return Error(NotMapping);
    }
    var robotType := AsString(Get(root, "robot_type"), "");
    if robotType == "" {
      return Error(NoRobotType);
    }
    var fps := AsInt(Get(root, "fps"), 30);
    if fps <= 0 {
      return Error(FpsNotPositive);
    }
    var maxDuration, storage := AsReal(Get(root, "max_duration_s"), 30.0), "";
    var recording := Get(root, "recording");
    if recording.Mapping? && "storage" in recording.entries {
      storage := AsString(recording.entries["storage"], "");
    }
    var topics := CollectSections(root);
    if topics.Error? {
      return Error(topics.error);
    }
    SectionsRecordable(root, |SECTIONS|);
    return Ok(Contract(robotType, fps, maxDuration, storage, topics.value));
  }

  // ---------- What an accepted contract promises ----------

  /** Everything the recorder relies on: what TopicTable asks of a contract topic, a name and a type. */
  predicate Recordable(t: RecordTopic) {
    ContractTopic(t) && t.topic != "" && t.typ != ""
  }

  lemma TopicRecordable(n: Node)
    requires ParseTopic(n).Ok?
    ensures Recordable(ParseTopic(n).value) && ParseTopic(n).value.strategy == NoBuffer
  {
  }

  lemma AdjunctRecordable(n: Node)
    requires ParseAdjunct(n).Ok?
    ensures Recordable(ParseAdjunct(n).value)
  {
    TopicRecordable(n);
  }

  lemma ItemRecordable(section: Section, item: Node)
    requires ParseItem(section, item).Ok?
    ensures Recordable(ParseItem(section, item).value)
    ensures ParseItem(section, item).value.strategy != NoBuffer ==> section.Adjunct?
  {
    match section
    case Adjunct => AdjunctRecordable(item);
    case Actions => TopicRecordable(Get(item, "publish"));
    case _ => TopicRecordable(item);
  }

  lemma {:induction false} Gathered(section: Section, results: seq<Outcome<RecordTopic, ItemError>>)
    ensures Gather(section, results).Ok? <==> forall i :: 0 <= i < |results| ==> results[i].Ok?
    ensures Gather(section, results).Ok? ==>
      && |Gather(section, results).value| == |results|
      && forall i :: 0 <= i < |results| ==> Gather(section, results).value[i] == results[i].value
    decreases |results|
  {
    if results != [] {
      Gathered(section, results[..|results| - 1]);
    }
  }

  lemma ParsedRecordable(section: Section, list: Node)
    requires Parsed(section, list).Ok?
    ensures forall i :: 0 <= i < |Parsed(section, list).value| ==> Recordable(Parsed(section, list).value[i])
  {
    var items := ItemsOf(section, list);
    Gathered(section, Results(section, items));
    forall i | 0 <= i < |items| ensures Recordable(Parsed(section, list).value[i]) {
      assert Results(section, items)[i].Ok?;
      ItemRecordable(section, items[i]);
    }
  }

  lemma {:induction false} SectionsRecordable(root: Node, n: nat)
    requires n <= |SECTIONS| && ParsedSections(root, n).Ok?
    ensures forall i :: 0 <= i < |ParsedSections(root, n).value| ==> Recordable(ParsedSections(root, n).value[i])
  {
    if n > 0 {
      SectionsRecordable(root, n - 1);
      ParsedRecordable(SECTIONS[n - 1], Get(root, KeyOf(SECTIONS[n - 1])));
    }
  }

  predicate SectionParses(section: Section, list: Node) {
    forall i :: 0 <= i < |ItemsOf(section, list)| ==> ParseItem(section, ItemsOf(section, list)[i]).Ok?
  }

  /** Every item of every section parses. */
  predicate AllItemsParse(root: Node) {
    forall k :: 0 <= k < |SECTIONS| ==> SectionParses(SECTIONS[k], Get(root, KeyOf(SECTIONS[k])))
  }

  lemma ParsedIff(section: Section, list: Node)
    ensures Parsed(section, list).Ok? <==> SectionParses(section, list)
  {
    var items := ItemsOf(section, list);
    var results := Results(section, items);
    Gathered(section, results);
    assert forall i :: 0 <= i < |items| ==> results[i] == ParseItem(section, items[i]);
  }

  lemma {:induction false} SectionsIff(root: Node, n: nat)
    requires n <= |SECTIONS|
    ensures ParsedSections(root, n).Ok? <==>
      forall k :: 0 <= k < n ==> Parsed(SECTIONS[k], Get(root, KeyOf(SECTIONS[k]))).Ok?
  {
    if n > 0 {
      SectionsIff(root, n - 1);
    }
  }

  /** A contract is accepted exactly when it names a robot, its fps is positive and every item parses. */
  lemma AcceptedIff(root: Node)
    ensures LoadContract(root).Ok? <==>
      && root.Mapping?
      && AsString(Get(root, "robot_type"), "") != ""
      && AsInt(Get(root, "fps"), 30) > 0
      && AllItemsParse(root)
  {
    SectionsIff(root, |SECTIONS|);
    forall k | 0 <= k < |SECTIONS|
      ensures Parsed(SECTIONS[k], Get(root, KeyOf(SECTIONS[k]))).Ok?
              <==> SectionParses(SECTIONS[k], Get(root, KeyOf(SECTIONS[k])))
    {
      ParsedIff(SECTIONS[k], Get(root, KeyOf(SECTIONS[k])));
    }
  }

  // ---------- The table built from it ----------

  const CLOCK: RecordTopic := RecordTopic("/clock", "rosgraph_msgs/msg/Clock", BARE_QOS, NoBuffer)

  /** What build_topic_list adds, in order. */
  function TopicSpecs(c: Contract, simTime: bool): seq<RecordTopic> {
    c.topics + (if simTime then [CLOCK] else [])
  }

  function Specs(topics: seq<TopicState>): seq<RecordTopic> {
    seq(|topics|, i requires 0 <= i < |topics| => topics[i].spec)
  }

  function Without(specs: seq<RecordTopic>, name: string): seq<RecordTopic> {
    if specs == [] then []
    else (if specs[0].topic == name then [] else [specs[0]]) + Without(specs[1..], name)
  }

  lemma {:induction false} WithoutShrinks(specs: seq<RecordTopic>, name: string)
    ensures |Without(specs, name)| <= |specs|
  {
    if specs != [] {
      WithoutShrinks(specs[1..], name);
    }
  }

  /** Each name once, where it first occurs, the rest in order. */
  function FirstOccurrences(specs: seq<RecordTopic>): seq<RecordTopic>
    decreases |specs|
  {
    if specs == [] then []
    else
      WithoutShrinks(specs[1..], specs[0].topic);
      [specs[0]] + FirstOccurrences(Without(specs[1..], specs[0].topic))
  }

  predicate HasName(specs: seq<RecordTopic>, name: string) {
    exists i :: 0 <= i < |specs| && specs[i].topic == name
  }

  lemma {:induction false} WithoutAppend(specs: seq<RecordTopic>, last: RecordTopic, name: string)
    ensures Without(specs + [last], name) ==
      Without(specs, name) + (if last.topic == name then [] else [last])
  {
    if specs == [] {
      assert [last][1..] == [] && specs + [last] == [last];
    } else {
      WithoutAppend(specs[1..], last, name);
      assert (specs + [last])[1..] == specs[1..] + [last];
    }
  }

  lemma {:induction false} WithoutHasName(specs: seq<RecordTopic>, name: string, other: string)
    ensures HasName(Without(specs, name), other) <==> other != name && HasName(specs, other)
  {
    if specs != [] {
      var rest := Without(specs[1..], name);
      WithoutHasName(specs[1..], name, other);
      assert HasName(specs, other) <==> specs[0].topic == other || HasName(specs[1..], other) by {
        NameSplit([specs[0]], specs[1..], other);
        assert specs == [specs[0]] + specs[1..];
      }
      NameSplit(if specs[0].topic == name then [] else [specs[0]], rest, other);
    }
  }

  lemma NameSplit(a: seq<RecordTopic>, b: seq<RecordTopic>, name: string)
    ensures HasName(a + b, name) <==> HasName(a, name) || HasName(b, name)
  {
    if HasName(a, name) {
      var i :| 0 <= i < |a| && a[i].topic == name;
      assert (a + b)[i].topic == name;
    }
    if HasName(b, name) {
      var i :| 0 <= i < |b| && b[i].topic == name;
      assert (a + b)[|a| + i].topic == name;
    }
  }

  lemma {:induction false} FirstOccurrencesAppend(specs: seq<RecordTopic>, last: RecordTopic)
    ensures FirstOccurrences(specs + [last]) ==
      FirstOccurrences(specs) + (if HasName(specs, last.topic) then [] else [last])
    decreases |specs|
  {
    if specs == [] {
      assert [last][1..] == [] && specs + [last] == [last];
    } else {
      var head, rest := specs[0], specs[1..];
      assert specs == [head] + rest && (specs + [last])[1..] == rest + [last];
      NameSplit([head], rest, last.topic);
      WithoutShrinks(rest, head.topic);
      WithoutAppend(rest, last, head.topic);
      WithoutHasName(rest, head.topic, last.topic);
      if last.topic != head.topic {
        FirstOccurrencesAppend(Without(rest, head.topic), last);
      } else {
        assert Without(rest + [last], head.topic) == Without(rest, head.topic);
        assert [head][0].topic == last.topic;
      }
    }
  }

  lemma {:induction false} TableIsFirstOccurrences(specs: seq<RecordTopic>)
    ensures Specs(AddAll(EMPTY, specs, false).topics) == FirstOccurrences(specs)
    ensures forall name :: name in AddAll(EMPTY, specs, false).index <==> HasName(specs, name)
    decreases |specs|
  {
    if specs != [] {
      var front, last := specs[..|specs| - 1], specs[|specs| - 1];
      TableIsFirstOccurrences(front);
      FirstOccurrencesAppend(front, last);
      assert specs == front + [last];
      forall name: string ensures HasName(specs, name) <==> HasName(front, name) || last.topic == name {
        NameSplit(front, [last], name);
        assert HasName([last], name) <==> [last][0].topic == name;
      }
    }
  }

  /**
    For every accepted contract: the table holds the first occurrence of each topic of the section
    concatenation, and /clock under simulated time; each can be recorded, and what a bag registers at
    position i is topic i.
   */
  lemma AcceptedTable(root: Node, simTime: bool)
    requires LoadContract(root).Ok?
    ensures var specs := TopicSpecs(LoadContract(root).value, simTime);
      var table := AddAll(EMPTY, specs, false);
      && ValidTable(table)
      && Specs(table.topics) == FirstOccurrences(specs)
      && (forall i :: 0 <= i < |specs| ==> Recordable(specs[i]))
      && (forall i :: 0 <= i < |table.topics| ==> Names(table.topics)[i] == FirstOccurrences(specs)[i].topic)
  {
    var specs := TopicSpecs(LoadContract(root).value, simTime);
    SectionsRecordable(root, |SECTIONS|);
    assert forall i :: 0 <= i < |specs| ==> Recordable(specs[i]);
    AddAllValid(EMPTY, specs, false);
    TableIsFirstOccurrences(specs);
    var table := AddAll(EMPTY, specs, false);
    forall i | 0 <= i < |table.topics| ensures Names(table.topics)[i] == FirstOccurrences(specs)[i].topic {
      assert Specs(table.topics)[i] == table.topics[i].spec;
    }
  }
}
