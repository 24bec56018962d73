/** Every accepted goal has exactly one fate, and every terminal call is legal. */
module GoalInvariant {
  import opened RecorderTypes
  import opened RecorderState
  import opened ExecutorSteps
  import opened ControlInvariant

  // ---------- The fate of goals ----------

  predicate Running(state: GoalState) {
    state.Executing? || state.Canceling?
  }

  predicate IsSettled(g: Goals, goal: Uuid) {
    exists i :: 0 <= i < |g.settled| && g.settled[i].goal == goal
  }

  /** Accepted goals split into settled, released and live. */
  predicate FatesOk(g: Goals, live: Option<Uuid>) {
    && (forall i, j :: 0 <= i < j < |g.settled| ==> g.settled[i].goal != g.settled[j].goal)
    && (forall i :: 0 <= i < |g.settled| ==> g.settled[i].goal in g.state && g.settled[i].goal !in g.released)
    && g.released <= g.state.Keys
    && (live.Some? ==>
      && live.value in g.state && Running(g.state[live.value])
      && live.value !in g.released && !IsSettled(g, live.value))
    && (forall goal :: goal in g.state ==> live == Some(goal) || goal in g.released || IsSettled(g, goal))
  }

  /** A finished goal is in the state its settlement asked for, and that was the right one to ask for. */
  predicate VerdictsOk(g: Goals) {
    forall i :: 0 <= i < |g.settled| ==> SettlementOk(g, g.settled[i])
  }

  predicate SettlementOk(g: Goals, x: Settlement) {
    && x.goal in g.state && g.state[x.goal] == x.verdict
    && x.verdict == Verdict(x.result.reason, x.sawCanceling)
    && CleanOk(x.result)
    && (x.result.reason.Cancelled? ==> x.sawCanceling)
  }

  /** A clean reason is only ever given to a bag with metadata. */
  predicate CleanOk(r: Result) {
    r.reason.Timeout? || r.reason.Stopped? ==> r.bag.Some? && r.metadataOk
  }

  /** What an ending or a result in progress knows. */
  predicate ReasonsOk(e: Exec, g: Goals) {
    && (InFinish(e.pc) ==>
      (e.pc.ending.reason.Cancelled? ==>
        e.goal.Some? && e.goal.value in g.state && g.state[e.goal.value].Canceling?))
    && ((e.pc.Settling? || e.pc.SettleCall?) ==>
      && CleanOk(e.pc.result)
      && e.goal.Some? && e.goal.value in g.state
      && (e.pc.result.reason.Cancelled? ==> g.state[e.goal.value].Canceling?))
    && (e.pc.SettleCall? ==>
      && (e.pc.sawCanceling ==> g.state[e.goal.value].Canceling?)
      && (e.pc.result.reason.Cancelled? ==> e.pc.sawCanceling))
  }

  predicate Goaled(s: Recorder) {
    FatesOk(s.goals, s.exec.goal) && VerdictsOk(s.goals) && ReasonsOk(s.exec, s.goals)
  }

  lemma InitialGoals(defaultLimit: int)
    ensures Goaled(Initial(defaultLimit))
  {
  }

  // ---------- Steps ----------

  /** Steps that keep the goals, the live goal, and any ending or result in progress. */
  predicate GoalFrame(s: Recorder, s': Recorder) {
    && s'.goals == s.goals && s'.exec.goal == s.exec.goal
    && ReasonsOk(s'.exec, s'.goals)
  }

  lemma FrameKeepsGoals(s: Recorder, s': Recorder)
    requires Goaled(s) && GoalFrame(s, s')
    ensures Goaled(s')
  {
  }

  lemma LifeFrame(s: Recorder, a: LifeAction)
    requires EpisodeOk(s.exec) && ReasonsOk(s.exec, s.goals) && FatesOk(s.goals, s.exec.goal) && LifeEnabled(s, a)
    ensures GoalFrame(s, LifeStep(s, a))
  {
  }

  lemma RunFrame(s: Recorder, a: RunAction)
    requires EpisodeOk(s.exec) && ReasonsOk(s.exec, s.goals) && RunEnabled(s, a) && !a.HandleCancel?
    ensures GoalFrame(s, RunStep(s, a))
  {
  }

  lemma StartFrame(s: Recorder, a: StartAction)
    requires EpisodeOk(s.exec) && ReasonsOk(s.exec, s.goals) && FatesOk(s.goals, s.exec.goal)
    requires StartEnabled(s, a) && !a.AcceptGoal? && !a.StartService?
    ensures GoalFrame(s, StartStep(s, a))
  {
  }

  lemma FinishFrame(s: Recorder, a: FinishAction)
    requires EpisodeOk(s.exec) && ReasonsOk(s.exec, s.goals) && FatesOk(s.goals, s.exec.goal)
    requires FinishEnabled(s, a) && !a.CallSettle?
    ensures GoalFrame(s, FinishStep(s, a))
  {
  }

  /** A cancel can land at any time: it makes no call illegal and changes no verdict already reached. */
  lemma CancelKeepsGoals(s: Recorder, goal: Uuid)
    requires Goaled(s)
    ensures Goaled(CancelGoal(s, goal))
  {
  }

  lemma AcceptKeepsGoals(s: Recorder, goal: Uuid)
    requires FatesOk(s.goals, None) && VerdictsOk(s.goals) && goal !in s.goals.state
    ensures FatesOk(s.goals.(state := s.goals.state[goal := Executing]), Some(goal))
    ensures VerdictsOk(s.goals.(state := s.goals.state[goal := Executing]))
  {
  }

  lemma ReleaseKeepsGoals(g: Goals, live: Uuid)
    requires FatesOk(g, Some(live)) && VerdictsOk(g)
    ensures FatesOk(g.(released := g.released + {live}), None)
    ensures VerdictsOk(g.(released := g.released + {live}))
  {
  }

  lemma StartKeepsGoals(s: Recorder, a: StartAction)
    requires EpisodeOk(s.exec) && Goaled(s) && StartEnabled(s, a)
    ensures Goaled(StartStep(s, a))
  {
    match a
    case AcceptGoal(goal, _, _) => AcceptKeepsGoals(s, goal);
    case StartService(_) =>
      if s.exec.goal.Some? { ReleaseKeepsGoals(s.goals, s.exec.goal.value); }
    case _ =>
      StartFrame(s, a);
      FrameKeepsGoals(s, StartStep(s, a));
  }

  /** settle_goal's terminal call is always legal. */
  lemma SettleIsLegal(s: Recorder)
    requires Goaled(s) && s.exec.pc.SettleCall? && s.exec.goal.Some?
    ensures Legal(s.goals.state[s.exec.goal.value], Verdict(s.exec.pc.result.reason, s.exec.pc.sawCanceling))
  {
  }

  lemma SettleKeepsFates(g: Goals, x: Settlement)
    requires FatesOk(g, Some(x.goal)) && VerdictsOk(g)
    requires x.verdict == Verdict(x.result.reason, x.sawCanceling) && CleanOk(x.result)
    requires x.result.reason.Cancelled? ==> x.sawCanceling
    ensures var g' := g.(state := g.state[x.goal := x.verdict], settled := g.settled + [x]);
      FatesOk(g', None) && VerdictsOk(g')
  {
    var g' := g.(state := g.state[x.goal := x.verdict], settled := g.settled + [x]);
    assert g'.settled[|g.settled|].goal == x.goal;
    forall i | 0 <= i < |g.settled| ensures g'.settled[i] == g.settled[i] && g.settled[i].goal != x.goal {
    }
    forall goal | goal in g'.state ensures goal in g'.released || IsSettled(g', goal) {
      if goal != x.goal && IsSettled(g, goal) {
        var i :| 0 <= i < |g.settled| && g.settled[i].goal == goal;
        assert g'.settled[i].goal == goal;
      }
    }
  }

  lemma FinishKeepsGoals(s: Recorder, a: FinishAction)
    requires EpisodeOk(s.exec) && Goaled(s) && FinishEnabled(s, a)
    ensures Goaled(FinishStep(s, a))
  {
    if a.CallSettle? {
      var pc, goal := s.exec.pc, s.exec.goal.value;
      SettleIsLegal(s);
      SettleKeepsFates(s.goals, Settlement(goal, pc.result, pc.sawCanceling,
                                           Verdict(pc.result.reason, pc.sawCanceling)));
    } else {
      FinishFrame(s, a);
      FrameKeepsGoals(s, FinishStep(s, a));
    }
  }

  lemma LifeKeepsGoals(s: Recorder, a: LifeAction)
    requires EpisodeOk(s.exec) && Goaled(s) && LifeEnabled(s, a)
    ensures Goaled(LifeStep(s, a))
  {
    LifeFrame(s, a);
    FrameKeepsGoals(s, LifeStep(s, a));
  }

  lemma RunKeepsGoals(s: Recorder, a: RunAction)
    requires EpisodeOk(s.exec) && Goaled(s) && RunEnabled(s, a)
    ensures Goaled(RunStep(s, a))
  {
    if a.HandleCancel? {
      CancelKeepsGoals(RequestStop(s), a.goal);
    } else {
      RunFrame(s, a);
      FrameKeepsGoals(s, RunStep(s, a));
    }
  }
}
