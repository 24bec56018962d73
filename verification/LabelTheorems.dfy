/**
  Under which name a message is written. In its own episode that is the topic that delivered it; a
  message that reaches a later bag is written under whatever topic then holds its position.
 */
module LabelTheorems {
  import opened RecorderTypes
  import opened TopicTable
  import opened RecorderState
  import opened WriterSteps
  import opened ExecutorSteps
  import opened ControlInvariant
  import opened FlowInvariant
  import opened BagInvariant
  import opened Runs

  /** The bag of the message's own episode registers, at the message's position, the topic that delivered it. */
  predicate SourceOk(m: QueuedMessage, p: Past, k: Sink) {
    && m.episode < Bound(p, k)
    && m.topic < |RegisteredIn(p, k, m.episode)|
    && RegisteredIn(p, k, m.episode)[m.topic] == m.data.source
  }

  /** A written message carries the name its bag registers at the message's position. */
  predicate LabelOk(x: Handled, p: Past, k: Sink) {
    x.fate.Written? ==>
      && x.fate.bag < Bound(p, k)
      && x.msg.topic < |RegisteredIn(p, k, x.fate.bag)|
      && RegisteredIn(p, k, x.fate.bag)[x.msg.topic] == x.fate.name
  }

  predicate Labelled(p: Past, k: Sink) {
    && (forall i :: 0 <= i < |p.accepted| ==> SourceOk(p.accepted[i], p, k))
    && (forall i :: 0 <= i < |p.handled| ==> LabelOk(p.handled[i], p, k))
  }

  // ---------- Registered topics never change ----------

  predicate SameRegistered(p: Past, k: Sink, p': Past, k': Sink) {
    && Bound(p, k) <= Bound(p', k')
    && forall n :: 0 <= n < Bound(p, k) ==> RegisteredIn(p', k', n) == RegisteredIn(p, k, n)
  }

  lemma RegisteredKeepsLabels(p: Past, k: Sink, p': Past, k': Sink)
    requires Labelled(p, k) && SameRegistered(p, k, p', k')
    requires p'.accepted == p.accepted && p'.handled == p.handled
    ensures Labelled(p', k')
  {
  }

  lemma WriterKeepsRegistered(s: Recorder, a: WriterAction)
    requires WriterEnabled(s, a)
    ensures var s' := WriterStep(s, a); SameRegistered(s.past, s.sink, s'.past, s'.sink)
  {
  }

  lemma LifeKeepsRegistered(s: Recorder, a: LifeAction)
    requires LifeEnabled(s, a)
    ensures var s' := LifeStep(s, a);
      && SameRegistered(s.past, s.sink, s'.past, s'.sink)
      && s'.past.accepted == s.past.accepted && s'.past.handled == s.past.handled
  {
  }

  lemma StartKeepsRegistered(s: Recorder, a: StartAction)
    requires StartEnabled(s, a) && (s.exec.pc.Opened? ==> s.sink.writer.None?)
    ensures var s' := StartStep(s, a);
      && SameRegistered(s.past, s.sink, s'.past, s'.sink)
      && s'.past.accepted == s.past.accepted && s'.past.handled == s.past.handled
  {
  }

  lemma RunKeepsRegistered(s: Recorder, a: RunAction)
    requires RunEnabled(s, a)
    ensures var s' := RunStep(s, a);
      && SameRegistered(s.past, s.sink, s'.past, s'.sink)
      && s'.past.handled == s.past.handled
      && (!a.Deliver? ==> s'.past.accepted == s.past.accepted)
  {
  }

  lemma FinishKeepsRegistered(s: Recorder, a: FinishAction)
    requires FinishEnabled(s, a)
    ensures var s' := FinishStep(s, a);
      && SameRegistered(s.past, s.sink, s'.past, s'.sink)
      && s'.past.accepted == s.past.accepted && s'.past.handled == s.past.handled
  {
  }

  // ---------- New messages and new fates ----------

  lemma DeliverLabelled(s: Recorder, index: nat, data: Payload, now: int)
    requires Labelled(s.past, s.sink) && (s.exec.recording ==> s.sink.writer.Some?)
    requires s.sink.writer.Some? ==> s.sink.writer.value.registered == Names(s.table.topics)
    requires index < |s.table.topics| && s.table.topics[index].spec.topic == data.source
    ensures var s' := DeliverStep(s, index, data, now); Labelled(s'.past, s'.sink)
  {
    var s' := DeliverStep(s, index, data, now);
    if s.exec.recording && !QueueFull(s.queue, data.length) {
      var m := QueuedMessage(data, now, index, |s.past.closed|);
      assert SourceOk(m, s.past, s.sink);
      assert s'.past.accepted == s.past.accepted + [m];
    }
  }

  lemma WriterLabels(s: Recorder, a: WriterAction)
    requires Labelled(s.past, s.sink) && WriterEnabled(s, a)
    requires NameOk(s.past, s.thread, s.queue, s.sink, s.table, s.exec)
    ensures var s' := WriterStep(s, a); Labelled(s'.past, s'.sink)
  {
    var s' := WriterStep(s, a);
    WriterKeepsRegistered(s, a);
    var handled, handled' := s.past.handled, s'.past.handled;
    forall i | 0 <= i < |handled'| ensures LabelOk(handled'[i], s'.past, s'.sink) {
      if i < |handled| {
        assert handled'[i] == handled[i];
        assert LabelOk(handled[i], s.past, s.sink);
      } else if a.Write? && a.ok {
        assert Names(s.table.topics)[s.thread.batch[0].topic] == s.thread.pc.name;
      }
    }
  }

  lemma StepKeepsLabels(s: Recorder, a: Action)
    requires Inv(s) && Labelled(s.past, s.sink) && Enabled(s, a)
    ensures var s' := Step(s, a); Labelled(s'.past, s'.sink)
  {
    match a
    case Writer(writer) => WriterLabels(s, writer);
    case Life(life) =>
      LifeKeepsRegistered(s, life);
      RegisteredKeepsLabels(s.past, s.sink, LifeStep(s, life).past, LifeStep(s, life).sink);
    case Start(start) =>
      StartKeepsRegistered(s, start);
      RegisteredKeepsLabels(s.past, s.sink, StartStep(s, start).past, StartStep(s, start).sink);
    case Run(run) => RunKeepsLabels(s, run);
    case Finish(finish) =>
      FinishKeepsRegistered(s, finish);
      RegisteredKeepsLabels(s.past, s.sink, FinishStep(s, finish).past, FinishStep(s, finish).sink);
    case CancelLands(_) =>
  }

  lemma RunKeepsLabels(s: Recorder, a: RunAction)
    requires Control(s) && Bags(s) && Labelled(s.past, s.sink) && RunEnabled(s, a)
    ensures var s' := RunStep(s, a); Labelled(s'.past, s'.sink)
  {
    match a
    case Deliver(position, length, now) =>
      var sub := s.table.topics[position].sub;
      DeliverLabelled(s, sub.index, Payload(s.past.delivered, length, sub.name), now);
    case _ =>
      RunKeepsRegistered(s, a);
      RegisteredKeepsLabels(s.past, s.sink, RunStep(s, a).past, RunStep(s, a).sink);
  }

  lemma LabelledNext(states: seq<Recorder>, schedule: seq<Action>, n: nat)
    requires IsHistory(states, schedule) && n < |schedule| && Labelled(states[n].past, states[n].sink)
    ensures Labelled(states[n + 1].past, states[n + 1].sink)
  {
    HistoryKeepsInv(states, schedule, n);
    assert Follows(states[n], schedule[n], states[n + 1]);
    StepKeepsLabels(states[n], schedule[n]);
  }

  lemma {:induction false} RunLabelled(states: seq<Recorder>, schedule: seq<Action>, n: nat)
    requires IsHistory(states, schedule) && n <= |schedule|
    ensures Labelled(states[n].past, states[n].sink)
  {
    if n > 0 {
      RunLabelled(states, schedule, n - 1);
      LabelledNext(states, schedule, n - 1);
    }
  }

  lemma ReachableLabelled(s: Recorder)
    requires Reachable(s)
    ensures Labelled(s.past, s.sink)
  {
    var states: seq<Recorder>, schedule: seq<Action> :| IsHistory(states, schedule) && states[|schedule|] == s;
    RunLabelled(states, schedule, |schedule|);
  }

  // ---------- The result ----------

  lemma AcceptedSource(p: Past, w: WriterThread, q: Queue, k: Sink, i: nat)
    requires ConserveOk(p, w, q) && Labelled(p, k) && i < |p.handled|
    ensures SourceOk(p.handled[i].msg, p, k)
  {
    var m := p.handled[i].msg;
    assert Line(p, w, q)[i] == m;
    assert m in multiset(p.accepted);
  }

  /**
    A written message carries the name of the topic that delivered it exactly when the bag it reached and
    the bag of its own episode register the same topic at its position. In its own bag that always holds.
   */
  lemma RightNameIff(s: Recorder, i: nat)
    requires Reachable(s) && i < |s.past.handled| && s.past.handled[i].fate.Written?
    ensures var x := s.past.handled[i];
      && x.msg.episode < Bound(s.past, s.sink) && x.fate.bag < Bound(s.past, s.sink)
      && var own, reached := RegisteredIn(s.past, s.sink, x.msg.episode), RegisteredIn(s.past, s.sink, x.fate.bag);
      && x.msg.topic < |own| && x.msg.topic < |reached|
      && (x.fate.name == x.msg.data.source <==> own[x.msg.topic] == reached[x.msg.topic])
  {
    ReachableLabelled(s);
    ReachableInv(s);
    AcceptedSource(s.past, s.thread, s.queue, s.sink, i);
    assert LabelOk(s.past.handled[i], s.past, s.sink);
  }
}
