/**
  What a contract means, field by field: the keys read, the words understood, what is assumed where nothing
  is written, and which error is reported.
 */
module ContractDefaults {
  import opened RecorderTypes
  import opened ContractLoader
  import ContractRoundTrip

  // ---------- Words ----------

  predicate AllBlank(s: string) {
    forall i :: 0 <= i < |s| ==> s[i] in " \t\r\n"
  }

  /** Not blank at either end. */
  predicate Trimmed(s: string) {
    s != [] ==> s[0] !in " \t\r\n" && s[|s| - 1] !in " \t\r\n"
  }

  function Lower(c: char): char {
    if c in "ABCDEFGHIJKLMNOPQRSTUVWXYZ" then c - 'A' + 'a' else c
  }

  lemma {:induction false} TrimsLeft(left: string, word: string)
    requires AllBlank(left) && (word != [] ==> word[0] !in " \t\r\n")
    ensures TrimLeft(left + word) == word
  {
    if left == [] {
      assert left + word == word;
    } else {
      assert (left + word)[0] == left[0] && (left + word)[1..] == left[1..] + word;
      TrimsLeft(left[1..], word);
    }
  }

  lemma {:induction false} TrimsRight(word: string, right: string)
    requires AllBlank(right) && (word != [] ==> word[|word| - 1] !in " \t\r\n")
    ensures TrimRight(word + right) == word
    decreases |right|
  {
    if right == [] {
      assert word + right == word;
    } else {
      var s := word + right;
      assert s[|s| - 1] == right[|right| - 1] && s[..|s| - 1] == word + right[..|right| - 1];
      TrimsRight(word, right[..|right| - 1]);
    }
  }

  /** Blanks around a word are dropped, and its letters are lowered one by one. */
  lemma TrimmedAndLowered(left: string, word: string, right: string)
    requires AllBlank(left) && Trimmed(word) && AllBlank(right)
    ensures |LowerTrim(left + word + right)| == |word|
    ensures forall i :: 0 <= i < |word| ==> LowerTrim(left + word + right)[i] == Lower(word[i])
  {
    if word == [] {
      TrimsLeft(left + right, []);
      assert left + word + right == left + right + [];
    } else {
      assert left + word + right == left + (word + right);
      TrimsLeft(left, word + right);
      TrimsRight(word, right);
      assert forall c: char :: 'A' <= c <= 'Z' <==> c in "ABCDEFGHIJKLMNOPQRSTUVWXYZ";
    }
  }

  /** A scalar whose text is this word, up to blanks and case. */
  predicate Says(n: Node, key: string, word: string) {
    n.Mapping? && key in n.entries && n.entries[key].Scalar? && LowerTrim(n.entries[key].text) == word
  }

  lemma DefaultWords()
    ensures LowerTrim("reliable") == "reliable" && LowerTrim("keep_last") == "keep_last"
    ensures LowerTrim("volatile") == "volatile"
  {
    ContractRoundTrip.ReliabilityWords();
    ContractRoundTrip.HistoryWords();
    ContractRoundTrip.DurabilityWords();
    ContractRoundTrip.WordUnchanged("reliable");
    ContractRoundTrip.WordUnchanged("keep_last");
    ContractRoundTrip.WordUnchanged("volatile");
  }

  // ---------- Quality of service ----------

  /**
    Without a qos mapping, or with an empty one: reliable, keep_last, volatile, depth 10, automatic liveliness.
    With one: each policy is left from its default by one word alone, the depth by a positive integer, and the
    liveliness is the system default.
   */
  lemma QosMeaning(n: Node)
    ensures !n.Mapping? || n.entries == map[] ==> ParseQos(n) == Qos(10, true, true, false, 1)
    ensures n.Mapping? && n.entries != map[] ==>
      && (ParseQos(n).reliable <==> !Says(n, "reliability", "best_effort"))
      && (ParseQos(n).keepLast <==> !Says(n, "history", "keep_all"))
      && (ParseQos(n).transientLocal <==> Says(n, "durability", "transient_local"))
      && ParseQos(n).liveliness == 0
      && ParseQos(n).depth ==
           if "depth" in n.entries && n.entries["depth"].Scalar? && n.entries["depth"].number.Some?
              && n.entries["depth"].number.value > 0
           then n.entries["depth"].number.value else 10
  {
    DefaultWords();
  }

  // ---------- Items ----------

  /** A field that can be read as a name: a scalar that is not empty. */
  predicate Named(n: Node, key: string) {
    n.Mapping? && key in n.entries && n.entries[key].Scalar? && n.entries[key].text != ""
  }

  /** What an item says of its topic, in an item that names a topic and a type. */
  function TopicOf(n: Node, strategy: Strategy): RecordTopic
    requires Named(n, "topic") && Named(n, "type")
  {
    RecordTopic(n.entries["topic"].text, n.entries["type"].text,
                ParseQos(if "qos" in n.entries then n.entries["qos"] else Undefined), strategy)
  }

  /** A topic parses exactly when it has a name and a type, and then to these and its qos, unbuffered. */
  lemma TopicMeaning(n: Node)
    ensures ParseTopic(n).Ok? <==> Named(n, "topic") && Named(n, "type")
    ensures ParseTopic(n).Ok? ==> ParseTopic(n).value == TopicOf(n, NoBuffer)
  {
  }

  /** Nothing said of buffering: the key is absent, or null. */
  predicate Unsaid(n: Node) {
    n.Mapping? && ("buffering_strategy" in n.entries ==> n.entries["buffering_strategy"].Null?
                                                         || n.entries["buffering_strategy"].Undefined?)
  }

  /** An adjunct that says nothing of buffering accumulates if it is latched, and is not buffered otherwise. */
  lemma UnsaidStrategy(n: Node)
    requires Named(n, "topic") && Named(n, "type") && Unsaid(n)
    ensures var latched := "qos" in n.entries && Says(n.entries["qos"], "durability", "transient_local");
      ParseAdjunct(n) == Ok(TopicOf(n, if latched then Accumulate else NoBuffer))
  {
    TopicMeaning(n);
    QosMeaning(Get(n, "qos"));
  }

  /** The strategies by name; all but no_buffer need a latched topic. */
  predicate MaySay(n: Node, strategy: Strategy) {
    var latched := n.Mapping? && "qos" in n.entries && Says(n.entries["qos"], "durability", "transient_local");
    match strategy
    case NoBuffer => Says(n, "buffering_strategy", "no_buffer")
    case Accumulate => latched && Says(n, "buffering_strategy", "accumulate")
    case ResubscribeOnStart => latched && Says(n, "buffering_strategy", "resubscribe_on_start")
  }

  lemma SaidStrategy(n: Node, strategy: Strategy)
    requires Named(n, "topic") && Named(n, "type") && !Unsaid(n)
    ensures ParseAdjunct(n) == Ok(TopicOf(n, strategy)) <==> MaySay(n, strategy)
    ensures ParseAdjunct(n).Ok? ==> ParseAdjunct(n).value == TopicOf(n, ParseAdjunct(n).value.strategy)
  {
    TopicMeaning(n);
    QosMeaning(Get(n, "qos"));
  }

  /** Which items parse, section by section. */
  predicate GoodItem(section: Section, n: Node) {
    match section
    case Actions =>
      && n.Mapping? && "publish" in n.entries
      && Named(n.entries["publish"], "topic") && Named(n.entries["publish"], "type")
    case Adjunct =>
      && Named(n, "topic") && Named(n, "type")
      && (Unsaid(n) || MaySay(n, NoBuffer) || MaySay(n, Accumulate) || MaySay(n, ResubscribeOnStart))
    case _ => Named(n, "topic") && Named(n, "type")
  }

  lemma AdjunctParsesIff(n: Node)
    ensures ParseAdjunct(n).Ok? <==> GoodItem(Adjunct, n)
  {
    TopicMeaning(n);
    if Named(n, "topic") && Named(n, "type") {
      if Unsaid(n) {
        UnsaidStrategy(n);
      } else {
        SaidStrategy(n, NoBuffer);
        SaidStrategy(n, Accumulate);
        SaidStrategy(n, ResubscribeOnStart);
        if ParseAdjunct(n).Ok? {
          SaidStrategy(n, ParseAdjunct(n).value.strategy);
        }
      }
    }
  }

  /** An item parses exactly when it is good; an action's topic is under `publish`. */
  lemma ItemMeaning(section: Section, n: Node)
    ensures ParseItem(section, n).Ok? <==> GoodItem(section, n)
    ensures GoodItem(section, n) && !section.Adjunct? ==>
      ParseItem(section, n).value == TopicOf(if section.Actions? then n.entries["publish"] else n, NoBuffer)
  {
    match section
    case Adjunct => AdjunctParsesIff(n);
    case Actions => TopicMeaning(Get(n, "publish"));
    case _ => TopicMeaning(n);
  }

  // ---------- Sections ----------

  const KEYS: seq<string> :=
    ["observations", "actions", "rewards", "signals", "info", "complementary_data", "tasks", "adjunct"]

  lemma SectionKeys()
    ensures |SECTIONS| == |KEYS| == 8
    ensures forall k :: 0 <= k < 8 ==> KeyOf(SECTIONS[k]) == KEYS[k]
    ensures forall k :: 0 <= k < 8 ==> (SECTIONS[k].Actions? <==> k == 1) && (SECTIONS[k].Adjunct? <==> k == 7)
  {
  }

  /** The items of section `k`: a list under its key; for adjuncts also a single item that is not null. */
  function ItemsUnder(root: Node, k: nat): seq<Node>
    requires root.Mapping? && k < 8
  {
    if KEYS[k] !in root.entries then []
    else
      match root.entries[KEYS[k]]
      case Sequence(items) => items
      case Null => []
      case Undefined => []
      case other => if k == 7 then [other] else []
  }

  lemma ItemsAre(root: Node, k: nat)
    requires root.Mapping? && k < 8
    ensures ItemsOf(SECTIONS[k], Get(root, KeyOf(SECTIONS[k]))) == ItemsUnder(root, k)
  {
    SectionKeys();
  }

  /** How many items the sections before section `k` hold. */
  function Before(root: Node, k: nat): nat
    requires root.Mapping? && k <= 8
  {
    if k == 0 then 0 else Before(root, k - 1) + |ItemsUnder(root, k - 1)|
  }

  lemma OwnItems(root: Node, k: nat)
    requires root.Mapping? && k < 8 && Parsed(SECTIONS[k], Get(root, KeyOf(SECTIONS[k]))).Ok?
    ensures var own := Parsed(SECTIONS[k], Get(root, KeyOf(SECTIONS[k]))).value;
      && |own| == |ItemsUnder(root, k)|
      && forall i :: 0 <= i < |own| ==> ParseItem(SECTIONS[k], ItemsUnder(root, k)[i]) == Ok(own[i])
  {
    ItemsAre(root, k);
    var results := Results(SECTIONS[k], ItemsUnder(root, k));
    Gathered(SECTIONS[k], results);
    assert forall i :: 0 <= i < |results| ==> results[i] == ParseItem(SECTIONS[k], ItemsUnder(root, k)[i]);
  }

  lemma {:induction false} SectionLength(root: Node, n: nat)
    requires root.Mapping? && n <= 8 && ParsedSections(root, n).Ok?
    ensures |ParsedSections(root, n).value| == Before(root, n)
  {
    if n > 0 {
      SectionLength(root, n - 1);
      OwnItems(root, n - 1);
    }
  }

  lemma SectionAppends(root: Node, k: nat)
    requires k < 8 && ParsedSections(root, k + 1).Ok?
    ensures ParsedSections(root, k).Ok? && Parsed(SECTIONS[k], Get(root, KeyOf(SECTIONS[k]))).Ok?
    ensures ParsedSections(root, k + 1).value
         == ParsedSections(root, k).value + Parsed(SECTIONS[k], Get(root, KeyOf(SECTIONS[k]))).value
  {
  }

  lemma AtAppend<T>(front: seq<T>, own: seq<T>, all: seq<T>, i: nat)
    requires all == front + own && i < |own|
    ensures |front| + i < |all| && all[|front| + i] == own[i]
  {
  }

  lemma LastSection(root: Node, k: nat, i: nat)
    requires root.Mapping? && k < 8 && i < |ItemsUnder(root, k)| && ParsedSections(root, k + 1).Ok?
    ensures var topics := ParsedSections(root, k + 1).value;
      && Before(root, k) + i < |topics|
      && ParseItem(SECTIONS[k], ItemsUnder(root, k)[i]) == Ok(topics[Before(root, k) + i])
  {
    SectionAppends(root, k);
    SectionLength(root, k);
    OwnItems(root, k);
    var front, own := ParsedSections(root, k).value, Parsed(SECTIONS[k], Get(root, KeyOf(SECTIONS[k]))).value;
    var item, all := ItemsUnder(root, k)[i], ParsedSections(root, k + 1).value;
    assert ParseItem(SECTIONS[k], item) == Ok(own[i]);
    AtAppend(front, own, all, i);
    assert |front| == Before(root, k) && all[|front| + i] == own[i];
  }

  lemma {:induction false} SectionsInOrder(root: Node, n: nat, k: nat, i: nat)
    requires root.Mapping? && k < n <= 8 && i < |ItemsUnder(root, k)| && ParsedSections(root, n).Ok?
    ensures var topics := ParsedSections(root, n).value;
      && Before(root, k) + i < |topics|
      && ParseItem(SECTIONS[k], ItemsUnder(root, k)[i]) == Ok(topics[Before(root, k) + i])
    decreases n
  {
    if k < n - 1 {
      SectionsInOrder(root, n - 1, k, i);
      assert ParsedSections(root, n - 1).value <= ParsedSections(root, n).value;
    } else {
      LastSection(root, k, i);
    }
  }

  /**
    In an accepted contract the topic of item `i` of section `k` stands after those of all earlier sections
    and items, and there are no others; an adjunct that says nothing of buffering is kept if it is latched.
   */
  lemma AcceptedItem(root: Node, k: nat, i: nat)
    requires LoadContract(root).Ok? && k < 8 && root.Mapping? && i < |ItemsUnder(root, k)|
    ensures var topics, item := LoadContract(root).value.topics, ItemsUnder(root, k)[i];
      && |topics| == Before(root, 8) && Before(root, k) + i < |topics|
      && GoodItem(SECTIONS[k], item)
      && var t := topics[Before(root, k) + i];
         && (k != 7 ==> t == TopicOf(if k == 1 then item.entries["publish"] else item, NoBuffer))
         && (k == 7 ==>
           && t == TopicOf(item, t.strategy)
           && (Unsaid(item) ==> t.strategy == if t.qos.transientLocal then Accumulate else NoBuffer)
           && (!Unsaid(item) ==> MaySay(item, t.strategy)))
  {
    SectionKeys();
    SectionsInOrder(root, 8, k, i);
    SectionLength(root, 8);
    var item := ItemsUnder(root, k)[i];
    ItemMeaning(SECTIONS[k], item);
    if k == 7 {
      AcceptedAdjunct(item);
    }
  }

  lemma AcceptedAdjunct(n: Node)
    requires ParseAdjunct(n).Ok?
    ensures var t := ParseAdjunct(n).value;
      && GoodItem(Adjunct, n) && t == TopicOf(n, t.strategy)
      && (Unsaid(n) ==> t.strategy == if t.qos.transientLocal then Accumulate else NoBuffer)
      && (!Unsaid(n) ==> MaySay(n, t.strategy))
  {
    AdjunctParsesIff(n);
    QosMeaning(Get(n, "qos"));
    if Unsaid(n) {
      UnsaidStrategy(n);
    } else {
      SaidStrategy(n, ParseAdjunct(n).value.strategy);
    }
  }

  // ---------- Header ----------

  /** The header, with fps 30, max_duration_s 30.0 and an empty storage where they cannot be read. */
  lemma HeaderMeaning(root: Node)
    requires LoadContract(root).Ok?
    ensures root.Mapping? && Named(root, "robot_type")
    ensures var c, e := LoadContract(root).value, root.entries;
      && c.robotType == e["robot_type"].text
      && c.fps == (if "fps" in e && e["fps"].Scalar? && e["fps"].number.Some? then e["fps"].number.value else 30)
      && c.maxDuration == (if "max_duration_s" in e && e["max_duration_s"].Scalar? && e["max_duration_s"].decimal.Some?
                           then e["max_duration_s"].decimal.value else 30.0)
      && c.storage == (if "recording" in e && e["recording"].Mapping? && "storage" in e["recording"].entries
                          && e["recording"].entries["storage"].Scalar?
                       then e["recording"].entries["storage"].text else "")
  {
  }

  // ---------- Errors ----------

  /** Every item before item `i` of section `k` is good. */
  predicate GoodBefore(root: Node, k: nat, i: nat)
    requires root.Mapping? && k < 8
  {
    && (forall m, j :: 0 <= m < k && 0 <= j < |ItemsUnder(root, m)| ==> GoodItem(SECTIONS[m], ItemsUnder(root, m)[j]))
    && (forall j :: 0 <= j < i && j < |ItemsUnder(root, k)| ==> GoodItem(SECTIONS[k], ItemsUnder(root, k)[j]))
  }

  lemma {:induction false} FirstBad(section: Section, results: seq<Outcome<RecordTopic, ItemError>>)
    requires Gather(section, results).Error?
    ensures var e := Gather(section, results).error;
      && e.BadItem? && e.section == section && e.index < |results|
      && results[e.index] == Error(e.why)
      && forall j :: 0 <= j < e.index ==> results[j].Ok?
    decreases |results|
  {
    if results != [] {
      var front := results[..|results| - 1];
      if Gather(section, front).Error? {
        FirstBad(section, front);
      } else {
        Gathered(section, front);
        assert forall j :: 0 <= j < |front| ==> results[j] == front[j];
      }
    }
  }

  lemma {:induction false} FirstBadSection(root: Node, n: nat) returns (k: nat)
    requires root.Mapping? && n <= 8 && ParsedSections(root, n).Error?
    ensures k < n && ParsedSections(root, n).error.BadItem? && ParsedSections(root, n).error.section == SECTIONS[k]
    ensures var e := ParsedSections(root, n).error;
      && e.index < |ItemsUnder(root, k)|
      && ParseItem(SECTIONS[k], ItemsUnder(root, k)[e.index]) == Error(e.why)
      && forall j :: 0 <= j < e.index ==> ParseItem(SECTIONS[k], ItemsUnder(root, k)[j]).Ok?
    ensures forall m :: 0 <= m < k ==> SectionParses(SECTIONS[m], Get(root, KeyOf(SECTIONS[m])))
    decreases n
  {
    if ParsedSections(root, n - 1).Error? {
      k := FirstBadSection(root, n - 1);
    } else {
      k := n - 1;
      ItemsAre(root, k);
      var results := Results(SECTIONS[k], ItemsUnder(root, k));
      FirstBad(SECTIONS[k], results);
      assert forall j :: 0 <= j < |results| ==> results[j] == ParseItem(SECTIONS[k], ItemsUnder(root, k)[j]);
      EarlierParse(root, k);
    }
  }

  lemma EarlierParse(root: Node, k: nat)
    requires k < 8 && ParsedSections(root, k).Ok?
    ensures forall m :: 0 <= m < k ==> SectionParses(SECTIONS[m], Get(root, KeyOf(SECTIONS[m])))
  {
    SectionsIff(root, k);
    forall m | 0 <= m < k ensures SectionParses(SECTIONS[m], Get(root, KeyOf(SECTIONS[m]))) {
      ParsedIff(SECTIONS[m], Get(root, KeyOf(SECTIONS[m])));
    }
  }

  /**
    The first thing wrong is what is reported: no mapping, then no robot_type, then an fps that is not
    positive, then the first bad item of the first section that has one.
   */
  lemma FirstError(root: Node)
    requires LoadContract(root).Error?
    ensures match LoadContract(root).error
      case NotMapping => !root.Mapping?
      case NoRobotType => root.Mapping? && !Named(root, "robot_type")
      case FpsNotPositive =>
        && Named(root, "robot_type") && "fps" in root.entries && root.entries["fps"].Scalar?
        && root.entries["fps"].number.Some? && root.entries["fps"].number.value <= 0
      case BadItem(section, i, why) =>
        && Named(root, "robot_type")
        && exists k :: 0 <= k < 8 && section == SECTIONS[k] && i < |ItemsUnder(root, k)|
                       && ParseItem(section, ItemsUnder(root, k)[i]) == Error(why)
                       && !GoodItem(section, ItemsUnder(root, k)[i]) && GoodBefore(root, k, i)
  {
    if root.Mapping? && ParsedSections(root, 8).Error? {
      var k := FirstBadSection(root, 8);
      var e := ParsedSections(root, 8).error;
      ItemMeaning(SECTIONS[k], ItemsUnder(root, k)[e.index]);
      forall j | 0 <= j < e.index ensures GoodItem(SECTIONS[k], ItemsUnder(root, k)[j]) {
        ItemMeaning(SECTIONS[k], ItemsUnder(root, k)[j]);
      }
      forall m, j | 0 <= m < k && 0 <= j < |ItemsUnder(root, m)|
        ensures GoodItem(SECTIONS[m], ItemsUnder(root, m)[j])
      {
        ItemsAre(root, m);
        ItemMeaning(SECTIONS[m], ItemsUnder(root, m)[j]);
      }
      assert GoodBefore(root, k, e.index);
    }
  }

  /** Why an item is refused: its shape first, then its topic, its type, and its strategy. */
  lemma WhyRefused(section: Section, n: Node)
    requires !GoodItem(section, n)
    ensures ParseItem(section, n).Error?
    ensures var at := if section.Actions? && n.Mapping? && "publish" in n.entries then n.entries["publish"] else n;
      ParseItem(section, n).error ==
        if section.Actions? && !(n.Mapping? && "publish" in n.entries && at.Mapping?) then MustBeMapping
        else if !section.Tasks? && !n.Mapping? then MustBeMapping
        else if n.Scalar? then BadSubscript
        else if !Named(at, "topic") then WhyNot(at, "topic")
        else if !Named(at, "type") then WhyNot(at, "type")
        else if n.entries["buffering_strategy"].Scalar?
                && LowerTrim(n.entries["buffering_strategy"].text) in {"accumulate", "resubscribe_on_start"}
        then StrategyNeedsLatched
        else UnknownStrategy
  {
    ItemMeaning(section, n);
    if section.Adjunct? && Named(n, "topic") && Named(n, "type") {
      TopicMeaning(n);
      QosMeaning(Get(n, "qos"));
    }
  }

  /** A field that is absent or null is missing; one that is there and no text is empty. */
  function WhyNot(n: Node, key: string): ItemError {
    if n.Mapping? && key in n.entries && !n.entries[key].Null? && !n.entries[key].Undefined? then Empty(key)
    else Missing(key)
  }

  // ---------- /clock ----------

  /** Under simulated time /clock comes last, with a bare depth of 10. */
  lemma ClockIsLast(c: Contract)
    ensures TopicSpecs(c, false) == c.topics
    ensures TopicSpecs(c, true) == c.topics
      + [RecordTopic("/clock", "rosgraph_msgs/msg/Clock", Qos(10, true, true, false, 1), NoBuffer)]
  {
  }
}
