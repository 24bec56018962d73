/** With a clock that advances by at least `pace` per tick, an episode has a bounded number of ticks. */
module TickBound {
  import opened RecorderState
  import opened ExecutorSteps
  import opened ControlInvariant
  import opened Runs

  /** max(1, ceil(limit / pace)). */
  function MaxTicks(limit: int, pace: int): int
    requires pace > 0
  {
    if limit <= pace then 1 else (limit + pace - 1) / pace
  }

  /** Every tick of the schedule finds the clock at least `pace` past the previous tick, or the start. */
  predicate Paced(s: Recorder, schedule: seq<Action>, pace: int)
    requires IsRun(s, schedule)
    decreases |schedule|
  {
    schedule != [] ==>
      && (schedule[0].Run? && schedule[0].run.Tick? ==> schedule[0].run.now >= s.exec.lastClock + pace)
      && Paced(Step(s, schedule[0]), schedule[1..], pace)
  }

  predicate PaceOk(e: Exec, pace: int) {
    && (e.recording ==> e.lastClock - e.started >= e.ticks * pace)
    && (e.recording && !e.pc.Ticking? && e.ticks > 0 ==> e.lastClock - e.started < e.limit)
    && (e.pc.Ticking? ==> e.pc.elapsed == e.lastClock - e.started && e.ticks > 0)
    && (e.pc.Ticking? && e.ticks > 1 ==> (e.ticks - 1) * pace < e.limit)
  }

  lemma Distribute(ticks: nat, pace: int)
    ensures (ticks + 1) * pace == ticks * pace + pace
  {
  }

  lemma TickKeepsPace(s: Recorder, now: int, pace: int)
    requires pace > 0 && PaceOk(s.exec, pace) && RunEnabled(s, Tick(now)) && now >= s.exec.lastClock + pace
    ensures PaceOk(TickStep(s, now).exec, pace)
  {
    Distribute(s.exec.ticks, pace);
  }

  /** Steps other than a tick leave the clock readings of a running episode alone. */
  predicate PaceFrame(e: Exec, e': Exec) {
    e'.recording ==>
      || (e.recording && e'.pc.Ticking? == e.pc.Ticking? && e'.ticks == e.ticks
          && e'.lastClock == e.lastClock && e'.started == e.started && e'.limit == e.limit
          && (e.pc.Ticking? ==> e'.pc == e.pc))
      || (e'.ticks == 0 && e'.lastClock == e'.started && !e'.pc.Ticking?)
  }

  lemma LifePace(s: Recorder, a: LifeAction)
    requires EpisodeOk(s.exec) && LifeEnabled(s, a)
    ensures PaceFrame(s.exec, LifeStep(s, a).exec)
    ensures LifeStep(s, a).exec.pc.Ticking? ==> LifeStep(s, a).exec.recording
  {
  }

  lemma StartPace(s: Recorder, a: StartAction)
    requires EpisodeOk(s.exec) && StartEnabled(s, a)
    ensures PaceFrame(s.exec, StartStep(s, a).exec)
    ensures StartStep(s, a).exec.pc.Ticking? ==> StartStep(s, a).exec.recording
  {
  }

  lemma FinishPace(s: Recorder, a: FinishAction)
    requires EpisodeOk(s.exec) && FinishEnabled(s, a)
    ensures !FinishStep(s, a).exec.recording && !FinishStep(s, a).exec.pc.Ticking?
  {
  }

  lemma OtherKeepPace(s: Recorder, a: Action)
    requires EpisodeOk(s.exec) && Enabled(s, a) && !a.Run?
    ensures PaceFrame(s.exec, Step(s, a).exec) && (Step(s, a).exec.pc.Ticking? ==> Step(s, a).exec.recording)
  {
    match a
    case Writer(_) =>
    case Life(life) => LifePace(s, life);
    case Start(start) => StartPace(s, start);
    case Finish(finish) => FinishPace(s, finish);
    case CancelLands(_) =>
  }

  lemma RunKeepsPace(s: Recorder, a: RunAction, pace: int)
    requires pace > 0 && EpisodeOk(s.exec) && PaceOk(s.exec, pace) && RunEnabled(s, a)
    requires a.Tick? ==> a.now >= s.exec.lastClock + pace
    ensures PaceOk(RunStep(s, a).exec, pace)
  {
    if a.Tick? {
      TickKeepsPace(s, a.now, pace);
    }
  }

  lemma PacedStep(s: Recorder, a: Action, pace: int)
    requires pace > 0 && Control(s) && PaceOk(s.exec, pace) && Enabled(s, a)
    requires a.Run? && a.run.Tick? ==> a.run.now >= s.exec.lastClock + pace
    ensures Control(Step(s, a)) && PaceOk(Step(s, a).exec, pace)
  {
    StepKeepsControl(s, a);
    if a.Run? {
      RunKeepsPace(s, a.run, pace);
    } else {
      OtherKeepPace(s, a);
    }
  }

  lemma {:induction false} PacedRun(s: Recorder, schedule: seq<Action>, pace: int)
    requires pace > 0 && Control(s) && PaceOk(s.exec, pace) && IsRun(s, schedule) && Paced(s, schedule, pace)
    ensures PaceOk(Outcome(s, schedule).exec, pace) && EpisodeOk(Outcome(s, schedule).exec)
    decreases |schedule|
  {
    if schedule != [] {
      PacedStep(s, schedule[0], pace);
      PacedRun(Step(s, schedule[0]), schedule[1..], pace);
    }
  }

  lemma StepKeepsControl(s: Recorder, a: Action)
    requires Control(s) && Enabled(s, a)
    ensures Control(Step(s, a))
  {
    match a
    case Writer(writer) => WriterKeepsControl(s, writer);
    case Life(life) => LifeKeepsControl(s, life);
    case Start(start) => StartKeepsControl(s, start);
    case Run(run) => RunKeepsControl(s, run);
    case Finish(finish) => FinishKeepsControl(s, finish);
    case CancelLands(_) =>
  }

  lemma Scale(a: nat, b: nat, pace: int)
    requires pace > 0
    ensures a <= b ==> a * pace <= b * pace
  {
  }

  lemma BelowLimit(ticks: nat, pace: int, limit: int)
    requires pace > 0 && ticks * pace < limit
    ensures ticks == 0 || ticks < MaxTicks(limit, pace)
  {
    Scale(1, ticks, pace);
    if limit > pace {
      var k := (limit + pace - 1) / pace;
      assert k * pace >= limit;
      Scale(k, ticks, pace);
    }
  }

  /**
    Whatever cancels, stops and failures occur, an episode that is still recording between ticks has had
    fewer than max(1, ceil(limit / pace)) of them; so that many ticks always end it.
   */
  lemma TicksBounded(defaultLimit: int, schedule: seq<Action>, pace: int)
    requires pace > 0 && IsRun(Initial(defaultLimit), schedule) && Paced(Initial(defaultLimit), schedule, pace)
    ensures var e := Outcome(Initial(defaultLimit), schedule).exec;
      && (e.recording && !e.pc.Ticking? ==> e.ticks < MaxTicks(e.limit, pace))
      && (e.recording && e.pc.Ticking? ==> e.ticks <= MaxTicks(e.limit, pace))
  {
    InitialControl(defaultLimit);
    PacedRun(Initial(defaultLimit), schedule, pace);
    var e := Outcome(Initial(defaultLimit), schedule).exec;
    MaxTicksPositive(e.limit, pace);
    if e.recording && e.pc.Ticking? && e.ticks > 1 {
      BelowLimit(e.ticks - 1, pace, e.limit);
    } else if e.recording && !e.pc.Ticking? && e.ticks > 0 {
      BelowLimit(e.ticks, pace, e.limit);
    }
  }

  lemma MaxTicksPositive(limit: int, pace: int)
    requires pace > 0
    ensures MaxTicks(limit, pace) >= 1
  {
    if limit > pace {
      assert (limit + pace - 1) / pace * pace >= limit;
    }
  }
}
