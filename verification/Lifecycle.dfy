/** What the lifecycle callbacks leave behind. */
module Lifecycle {
  import opened RecorderTypes
  import opened TopicTable
  import opened RecorderState
  import opened WriterSteps
  import opened ExecutorSteps
  import opened Runs
  import opened RecorderTheorems
  import ContractLoader

  /** The lifecycle callback the executor is inside of, if any. */
  function Within(pc: ExecPc): Option<Callback> {
    match pc
    case Stopping(callback) => Some(callback)
    case Halting(callback) => Some(callback)
    case Joining(callback) => Some(callback)
    case Clearing(callback) => Some(callback)
    case ErrorClosing => Some(OnError)
    case Settling(_, after) => AfterCallback(after)
    case SettleCall(_, _, after) => AfterCallback(after)
    case Finishing(ending) => Some(ending.callback)
    case Draining(ending) => Some(ending.callback)
    case Closing(ending) => Some(ending.callback)
    case Destroying(ending) => Some(ending.callback)
    case Reporting(ending) => Some(ending.callback)
    case _ => None
  }

  function AfterCallback(after: After): Option<Callback> {
    if after.AfterFailedStart? then None else Some(after.callback)
  }

  /** The state the node is in once the callback has returned; a tick changes none. */
  function PhaseAfter(callback: Callback, before: Phase): Phase {
    match callback
    case TickTimer => before
    case Deactivate => Inactive
    case Cleanup => Unconfigured
    case Shutdown => Finalized
    case OnError => Unconfigured
  }

  /** Inside this callback; only cleanup and shutdown halt the writer thread and clear the table. */
  predicate Inside(pc: ExecPc, callback: Callback) {
    && Within(pc) == Some(callback)
    && (pc.Halting? || pc.Joining? || pc.Clearing? ==> callback.Cleanup? || callback.Shutdown?)
  }

  /** Still inside the callback, in the same state of the node; or out of it, in the one it leads to. */
  predicate Lands(e: Exec, e': Exec, callback: Callback) {
    if Within(e'.pc).Some? then Inside(e'.pc, callback) && e'.phase == e.phase
    else e'.pc.Idle? && e'.phase == PhaseAfter(callback, e.phase)
  }

  lemma ReturnLands(e: Exec, callback: Callback)
    ensures Lands(e, Return(e, callback), callback)
  {
  }

  lemma StopLands(s: Recorder)
    requires LifeEnabled(s, StopRecording)
    ensures Lands(s.exec, StopRecordingStep(s).exec, s.exec.pc.callback)
  {
    ReturnLands(s.exec, s.exec.pc.callback);
  }

  lemma LifeLands(s: Recorder, a: LifeAction, callback: Callback)
    requires LifeEnabled(s, a) && Inside(s.exec.pc, callback)
    ensures Lands(s.exec, LifeStep(s, a).exec, callback)
  {
    if a.StopRecording? {
      StopLands(s);
    } else if a.Clear? {
      ClearLands(s);
    } else if a.CloseOnError? {
      assert callback.OnError?;
    } else {
      HaltLands(s, a);
    }
  }

  lemma ClearLands(s: Recorder)
    requires LifeEnabled(s, Clear)
    ensures var e' := ClearStep(s).exec;
      e'.pc.Idle? && e'.phase == if s.exec.pc.callback.Cleanup? then Unconfigured else Finalized
  {
  }

  lemma HaltLands(s: Recorder, a: LifeAction)
    requires LifeEnabled(s, a) && (a.HaltThread? || a.Join?)
    ensures var e' := LifeStep(s, a).exec;
      (e'.pc.Joining? || e'.pc.Clearing?) && e'.pc.callback == s.exec.pc.callback && e'.phase == s.exec.phase
  {
    if a.HaltThread? {
    } else {
    }
  }

  lemma ReportLands(s: Recorder, metadataOk: bool)
    requires FinishEnabled(s, Report(metadataOk))
    ensures Lands(s.exec, ReportStep(s, metadataOk).exec, s.exec.pc.ending.callback)
  {
    var e, callback := s.exec.(goalId := ""), s.exec.pc.ending.callback;
    if s.exec.goal.None? {
      ReturnLands(e, callback);
      assert ReportStep(s, metadataOk).exec == Return(e, callback);
    }
  }

  lemma SettleLands(s: Recorder, callback: Callback)
    requires FinishEnabled(s, CallSettle) && Inside(s.exec.pc, callback)
    ensures Lands(s.exec, CallSettleStep(s).exec, callback)
  {
    var e, e' := s.exec.(goal := None, goalId := ""), CallSettleStep(s).exec;
    AfterSettle(s, callback);
    LandsFrom(s.exec, e, e', callback);
  }

  lemma AfterSettle(s: Recorder, callback: Callback)
    requires FinishEnabled(s, CallSettle) && Within(s.exec.pc) == Some(callback)
    ensures var e := s.exec.(goal := None, goalId := "");
      CallSettleStep(s).exec ==
        if s.exec.pc.after.AfterFinish? then Return(e, callback) else e.(pc := Stopping(callback))
  {
  }

  lemma LandsFrom(before: Exec, e: Exec, e': Exec, callback: Callback)
    requires e.phase == before.phase && (e' == Return(e, callback) || e' == e.(pc := Stopping(callback)))
    ensures Lands(before, e', callback)
  {
    ReturnLands(e, callback);
  }

  lemma DrainLands(s: Recorder, a: FinishAction)
    requires FinishEnabled(s, a) && (a.BeginDrain? || a.WakeDrain? || a.DrainTimeout?)
    ensures var e' := FinishStep(s, a).exec;
      (e'.pc.Draining? || e'.pc.Closing?) && e'.pc.ending == s.exec.pc.ending && e'.phase == s.exec.phase
  {
    if a.BeginDrain? {
    } else if a.WakeDrain? {
    } else {
    }
  }

  lemma FinishLands(s: Recorder, a: FinishAction, callback: Callback)
    requires FinishEnabled(s, a) && Inside(s.exec.pc, callback)
    ensures Lands(s.exec, FinishStep(s, a).exec, callback)
  {
    if a.Report? {
      ReportLands(s, a.metadataOk);
    } else if a.CallSettle? {
      SettleLands(s, callback);
    } else if a.BeginDrain? || a.WakeDrain? || a.DrainTimeout? {
      DrainLands(s, a);
    }
  }

  lemma StepLands(s: Recorder, a: Action, callback: Callback)
    requires Enabled(s, a) && Inside(s.exec.pc, callback)
    ensures Lands(s.exec, Step(s, a).exec, callback)
  {
    match a
    case Life(life) => LifeLands(s, life, callback);
    case Finish(finish) => FinishLands(s, finish, callback);
    case Writer(writer) => WriterOutside(s, writer);
    case _ =>
  }

  lemma WriterOutside(s: Recorder, a: WriterAction)
    requires WriterEnabled(s, a)
    ensures WriterStep(s, a).exec == s.exec
  {
  }

  // ---------- The goal id ----------

  /** Once an episode, or a pending start, is done with, its goal id is forgotten with its goal. */
  lemma IdForgotten(s: Recorder, a: FinishAction)
    requires FinishEnabled(s, a)
    requires if a.Report? then s.exec.goal.None? else a.CallSettle? && !s.exec.pc.after.AfterFailedStart?
    ensures FinishStep(s, a).exec.goalId == "" && FinishStep(s, a).exec.goal.None?
  {
    if a.Report? {
      ReturnKeepsId(s.exec.(goalId := ""), s.exec.pc.ending.callback);
    } else if s.exec.pc.after.AfterFinish? {
      ReturnKeepsId(s.exec.(goal := None, goalId := ""), s.exec.pc.after.callback);
    }
  }

  lemma ReturnKeepsId(e: Exec, callback: Callback)
    ensures Return(e, callback).goalId == e.goalId && Return(e, callback).goal == e.goal
  {
  }

  // ---------- Configuring and activating ----------

  /** Configuring leaves the first occurrence of every topic given, in order, with nothing kept of any before. */
  lemma ConfigureBuilds(s: Recorder, specs: seq<RecordTopic>)
    requires Reachable(s) && LifeEnabled(s, Configure(specs))
    ensures var s' := LifeStep(s, Configure(specs));
      && s'.exec.phase.Inactive? && s'.exec.pc.Idle? && !s'.exec.accepting
      && ValidTable(s'.table) && ContractLoader.Specs(s'.table.topics) == ContractLoader.FirstOccurrences(specs)
      && forall i :: 0 <= i < |s'.table.topics| ==>
        var topic := s'.table.topics[i];
        !topic.discovered && topic.buffer == [] && topic.seen == [] && topic.written == 0
  {
    NothingLeft(s);
    AddAllValid(EMPTY, specs, false);
    AddAllExtends(EMPTY, specs, false);
    ContractLoader.TableIsFirstOccurrences(specs);
  }

  lemma ActivateAccepts(s: Recorder)
    requires Reachable(s) && LifeEnabled(s, Activate)
    ensures var s' := LifeStep(s, Activate);
      && s'.exec.phase.Active? && s'.exec.accepting && s'.exec.pc.Idle?
      && !s'.exec.recording && !s'.exec.pending && s'.table == s.table
  {
    NothingLeft(s);
  }

  // ---------- Over a run ----------

  predicate AllWithin(s: Recorder, schedule: seq<Action>)
    requires IsRun(s, schedule)
    decreases |schedule|
  {
    Within(s.exec.pc).Some? && (schedule == [] || AllWithin(Step(s, schedule[0]), schedule[1..]))
  }

  lemma {:induction false} StaysInside(s: Recorder, schedule: seq<Action>, callback: Callback)
    requires IsRun(s, schedule) && AllWithin(s, schedule) && Inside(s.exec.pc, callback)
    ensures Inside(Outcome(s, schedule).exec.pc, callback) && Outcome(s, schedule).exec.phase == s.exec.phase
    decreases |schedule|
  {
    if schedule != [] {
      StepLands(s, schedule[0], callback);
      StaysInside(Step(s, schedule[0]), schedule[1..], callback);
    }
  }

  lemma BeginStops(s: Recorder, callback: Callback)
    requires LifeEnabled(s, BeginStop(callback))
    ensures var e := LifeStep(s, BeginStop(callback)).exec;
      Inside(e.pc, callback) && e.phase == s.exec.phase && !e.accepting && !e.pending
  {
  }

  /**
    A lifecycle callback, whatever it has to finish and settle on the way, returns to Idle in the node state
    it leads to, with nothing recording or pending; and cleanup and shutdown leave no topic behind.
   */
  lemma CallbackLands(s: Recorder, callback: Callback, schedule: seq<Action>, last: Action)
    requires Reachable(s) && LifeEnabled(s, BeginStop(callback))
    requires IsRun(LifeStep(s, BeginStop(callback)), schedule) && AllWithin(LifeStep(s, BeginStop(callback)), schedule)
    requires Enabled(Outcome(LifeStep(s, BeginStop(callback)), schedule), last)
    requires Within(Step(Outcome(LifeStep(s, BeginStop(callback)), schedule), last).exec.pc).None?
    ensures var s' := Step(Outcome(LifeStep(s, BeginStop(callback)), schedule), last);
      && s'.exec.pc.Idle? && !s'.exec.accepting && !s'.exec.recording && !s'.exec.pending && s'.exec.goal.None?
      && (callback.Deactivate? ==> s'.exec.phase.Inactive?)
      && (callback.Cleanup? || callback.OnError? ==> s'.exec.phase.Unconfigured?)
      && (callback.Shutdown? ==> s'.exec.phase.Finalized?)
      && (callback.Cleanup? || callback.Shutdown? ==> s'.table.topics == [] && s'.table.index == map[])
  {
    var begun := LifeStep(s, BeginStop(callback));
    BeginStops(s, callback);
    StaysInside(begun, schedule, callback);
    var t := Outcome(begun, schedule);
    StepLands(t, last, callback);
    ReachableStep(s, Life(BeginStop(callback)));
    RunReaches(begun, schedule);
    ReachableStep(t, last);
    NothingLeft(Step(t, last));
    if callback.Cleanup? || callback.Shutdown? {
      ClearsLast(t, last, callback);
    }
  }

  /** Only the clearing step returns from cleanup or shutdown. */
  lemma ClearsLast(t: Recorder, last: Action, callback: Callback)
    requires Enabled(t, last) && Inside(t.exec.pc, callback) && (callback.Cleanup? || callback.Shutdown?)
    requires Within(Step(t, last).exec.pc).None?
    ensures Step(t, last).table == EMPTY
  {
    match last
    case Life(life) => LifeClears(t, life, callback);
    case Finish(finish) => FinishClears(t, finish, callback);
    case Writer(writer) => WriterOutside(t, writer); assert false;
    case _ => assert false;
  }

  lemma LifeClears(s: Recorder, a: LifeAction, callback: Callback)
    requires LifeEnabled(s, a) && Inside(s.exec.pc, callback) && (callback.Cleanup? || callback.Shutdown?)
    requires Within(LifeStep(s, a).exec.pc).None?
    ensures LifeStep(s, a).table == EMPTY
  {
    if a.StopRecording? {
      ReturnHalts(s.exec, callback);
    } else if a.HaltThread? || a.Join? {
      HaltLands(s, a);
    }
  }

  lemma ReturnHalts(e: Exec, callback: Callback)
    requires callback.Cleanup? || callback.Shutdown?
    ensures Return(e, callback).pc == Halting(callback)
  {
  }

  lemma FinishClears(s: Recorder, a: FinishAction, callback: Callback)
    requires FinishEnabled(s, a) && Inside(s.exec.pc, callback) && (callback.Cleanup? || callback.Shutdown?)
    ensures Within(FinishStep(s, a).exec.pc).Some?
  {
    FinishLands(s, a, callback);
    NotYetBack(s, a, callback);
  }

  lemma NotYetBack(s: Recorder, a: FinishAction, callback: Callback)
    requires FinishEnabled(s, a) && Inside(s.exec.pc, callback) && (callback.Cleanup? || callback.Shutdown?)
    ensures !FinishStep(s, a).exec.pc.Idle?
  {
    if a.BeginDrain? || a.WakeDrain? || a.DrainTimeout? {
      DrainLands(s, a);
    }
  }
}
