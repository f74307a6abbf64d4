/** What a turn of the agent loop makes of the plan: which of its ends it takes, and what stands in
    a plan after it was revised. */
module Replanning {
  import opened Text
  import opened Recovery
  import opened ToolBatch
  import opened StepLoop
  import opened Planner
  import opened AgentRun

  // ---------- the texts of a planner's reply ----------

  /** The stripped texts of a reply's entries, without blank ones and entries that hold none. */
  function Texts(entries: seq<Option<string>>): seq<string> {
    if entries == [] then []
    else
      var text := if entries[0].Some? then Strip(entries[0].value) else "";
      (if text == "" then [] else [text]) + Texts(entries[1..])
  }

  /** What the plan is to say: the texts of the reply, or the three of the fallback plan. */
  function PlanTexts(reply: Option<seq<Option<string>>>, repair: bool): (texts: seq<string>)
    ensures texts != []
  {
    if reply.Some? && Texts(reply.value) != [] then Texts(reply.value) else Fallback(repair)
  }

  lemma {:induction false} TextsSnoc(front: seq<Option<string>>, last: Option<string>)
    ensures Texts(front + [last])
            == Texts(front) + if last.Some? && Strip(last.value) != "" then [Strip(last.value)] else []
  {
    if front == [] {
      assert [last][1..] == [] && front + [last] == [last];
    } else {
      RestOfConcat(front, [last]);
      TextsSnoc(front[1..], last);
      var text := if front[0].Some? then Strip(front[0].value) else "";
      Assoc(if text == "" then [] else [text], Texts(front[1..]),
            if last.Some? && Strip(last.value) != "" then [Strip(last.value)] else []);
    }
  }

  /** Pending steps with exactly these texts. */
  predicate Says(steps: seq<PlanStep>, texts: seq<string>) {
    |steps| == |texts| && forall i | 0 <= i < |steps| ::
      steps[i].status.Pending? && steps[i].description == texts[i] && steps[i].result.None?
  }

  lemma {:induction false} ParsedSays(entries: seq<Option<string>>)
    ensures Says(ParsedSteps(entries), Texts(entries))
  {
    if entries != [] {
      ParsedSays(entries[..|entries| - 1]);
      TextsSnoc(entries[..|entries| - 1], entries[|entries| - 1]);
      Snoc(entries);
    }
  }

  /** A parsed plan says what the reply says, or what the fallback says. */
  lemma ParsePlanSays(reply: Option<seq<Option<string>>>, repair: bool)
    ensures Says(ParsePlan(reply, repair), PlanTexts(reply, repair))
  {
    NumberingSays(Fallback(repair));
    if reply.Some? {
      ParsedSays(reply.value);
    }
  }

  lemma NumberingSays(texts: seq<string>)
    ensures Says(Numbering(texts), texts)
  {
  }

  // ---------- a revised plan ----------

  lemma {:induction false} PendingSays(steps: seq<PlanStep>, texts: seq<string>)
    requires Says(steps, texts)
    ensures Says(PendingSteps(steps), texts)
  {
    if steps != [] {
      PendingSays(steps[..|steps| - 1], texts[..|texts| - 1]);
    }
  }

  /** `steps`, from position `k` on, are new pending steps with these texts. */
  predicate NewFrom(steps: seq<PlanStep>, k: nat, texts: seq<string>) {
    && |steps| == k + |texts|
    && forall j | 0 <= j < |texts| :: steps[k + j] == PlanStep(k + j + 1, texts[j], Pending, None)
  }

  lemma PreservedSays(steps: seq<PlanStep>, k: nat, revised: seq<PlanStep>, texts: seq<string>)
    requires Progress(steps, k) && k < |steps| && steps[k].status.InProgress? && Says(revised, texts)
    ensures var kept := Preserved(steps, revised);
            && NewFrom(kept, k, texts) && forall i | 0 <= i < k :: kept[i] == steps[i].(index := i + 1)
  {
    PendingSays(revised, texts);
    CompletedPrefix(steps, k);
    var kept := Preserved(steps, revised);
    assert |kept| == k + |texts|;
    forall j | 0 <= j < |texts| ensures kept[k + j] == PlanStep(k + j + 1, texts[j], Pending, None) {
      assert kept[k + j] == PendingSteps(revised)[j].(index := k + j + 1);
    }
  }

  /** A revised plan is the completed steps and then one pending step for each text of the
      planner's reply, or of the fallback; never none. */
  lemma ReplanExact(s: RunState, k: nat, p: Pass)
    requires Working(s, k)
    ensures var (t, texts) := (Replan(s, p), PlanTexts(p.revised, p.repair));
            && texts != [] && NewFrom(t.steps, k, texts)
            && (forall i | 0 <= i < k :: t.steps[i] == s.steps[i].(index := i + 1))
            && t.status.Executing? && !t.ended && t.transcript == s.transcript && t.batches == s.batches
            && t.seen == s.seen + ReplanSeen(s, t.steps)
  {
    ParsePlanSays(p.revised, p.repair);
    PreservedSays(s.steps, k, ParsePlan(p.revised, p.repair), PlanTexts(p.revised, p.repair));
    var asked := Seen(Phase(ReplanningPhase), s.steps, s.status);
    var steps := Preserved(s.steps, ParsePlan(p.revised, p.repair));
    assert s.seen + [asked] + [Seen(PlanUpdated, steps, Executing)] + [Seen(Phase(ExecutingPhase), steps, Executing)]
        == s.seen + ReplanSeen(s, steps);
  }

  lemma NewPending(steps: seq<PlanStep>, k: nat, texts: seq<string>)
    requires NewFrom(steps, k, texts)
    ensures forall i | k <= i < |steps| :: steps[i].status.Pending?
  {
    forall i | k <= i < |steps| ensures steps[i].status.Pending? {
      var j := i - k;
      assert steps[k + j] == PlanStep(k + j + 1, texts[j], Pending, None);
    }
  }

  /** The events of a replanning. */
  function ReplanSeen(s: RunState, steps: seq<PlanStep>): seq<Seen> {
    [Seen(Phase(ReplanningPhase), s.steps, s.status), Seen(PlanUpdated, steps, Executing),
     Seen(Phase(ExecutingPhase), steps, Executing)]
  }

  // ---------- the ends of a turn ----------

  /** A step without an answer is planned anew when a spent budget is to blame on a refused or failing
      tool, or, in the older loop, when anything but the model has failed too often. */
  predicate ReplansFor(cfg: Config, r: StepResult) {
    || (r.kind in {ToolBudget, ModelBudget} && r.state.failure.Some?
        && r.state.failure.value.failureClass in {ToolDenied, ToolBlocked, ToolError})
    || (!cfg.unified && r.kind != ModelBudget && r.state.attempts >= cfg.maxErrors)
  }

  function Why(cfg: Config, kind: FailureKind): string {
    match kind
    case ModelBudget => "Repeated model errors."
    case ToolBudget => if cfg.unified then "Repeated tool failures." else "Step did not complete successfully."
    case _ =>
      if cfg.unified then "Unified turn loop could not complete step." else "Step did not complete successfully."
  }

  /** Otherwise the step and the plan have failed, for the reason shown. */
  lemma FailureExact(cfg: Config, s: RunState, k: nat, r: StepResult, p: Pass)
    requires Working(s, k)
    ensures var t := AfterFailure(cfg, s, s.steps[k].index, r, p);
            if ReplansFor(cfg, r) then t == Replan(s, p) else FailedWith(s, k, Why(cfg, r.kind), t)
  {
    BranchExact(cfg, s, s.steps[k].index, r, p);
    FailExact(s, k, Why(cfg, r.kind));
  }

  lemma BranchExact(cfg: Config, s: RunState, index: int, r: StepResult, p: Pass)
    ensures AfterFailure(cfg, s, index, r, p)
            == if ReplansFor(cfg, r) then Replan(s, p) else FailRun(s, index, Why(cfg, r.kind))
  {
  }

  predicate FailedWith(s: RunState, k: nat, why: string, t: RunState)
    requires k < |s.steps|
  {
    && t.ended && t.status.PlanFailed?
    && t.steps == s.steps[k := s.steps[k].(status := StepStatus.Failed, result := Some(why))]
  }

  lemma FailExact(s: RunState, k: nat, why: string)
    requires Working(s, k)
    ensures FailedWith(s, k, why, FailRun(s, s.steps[k].index, why))
  {
    SetStepAt(s, k, StepStatus.Failed, why);
  }

  predicate AllCompleted(steps: seq<PlanStep>) {
    forall i | 0 <= i < |steps| :: steps[i].status.Completed?
  }

  /** The turn comes to work on a step. */
  predicate Works(s: RunState, p: Pass) {
    !p.stop && !p.inactive && !AllCompleted(s.steps)
  }

  lemma WorksNext(s: RunState)
    requires RunInv(s) && !s.ended
    ensures NextStep(s.steps).None? <==> AllCompleted(s.steps)
    ensures NextStep(s.steps).Some? ==>
              && NextStep(s.steps).value < |s.steps| && s.steps[NextStep(s.steps).value].status.Pending?
              && Progress(s.steps, NextStep(s.steps).value)
  {
    NextStepExact(s.steps);
    var k: nat :| Progress(s.steps, k) && (k < |s.steps| ==> s.steps[k].status.Pending?);
    assert k == |s.steps| || NextStep(s.steps) == Some(k);
  }

  /** How a turn ends the run, if it does: by which request, deadline, completion or failure. */
  lemma TurnExact(cfg: Config, env: Env, s: RunState, p: Pass)
    requires RunInv(s) && !s.ended
    ensures var (t, r) := (OnePass(cfg, env, s, p), RunStep(cfg, env, p.rounds));
            && (t.ended && t.status.Stopped? <==> p.stop || (Works(s, p) && p.stopAfter))
            && (t.ended && t.status.TimedOut? <==> !p.stop && p.inactive)
            && (t.ended && t.status.Done? <==> !p.stop && !p.inactive && AllCompleted(s.steps))
            && (t.ended && t.status.PlanFailed? <==>
                  Works(s, p) && !p.stopAfter && r.summary.None? && !ReplansFor(cfg, r))
  {
    WorksNext(s);
    if Works(s, p) {
      WorkExact(cfg, env, s, p);
    }
  }

  /** Else it goes on with the step completed, with what the step answered, or with a revised plan. */
  lemma WorkExact(cfg: Config, env: Env, s: RunState, p: Pass)
    requires RunInv(s) && !s.ended && Works(s, p)
    ensures NextStep(s.steps).Some? && NextStep(s.steps).value < |s.steps|
    ensures WorkedTo(cfg, s, p, RunStep(cfg, env, p.rounds), NextStep(s.steps).value, OnePass(cfg, env, s, p))
  {
    WorksNext(s);
    var (r, k) := (RunStep(cfg, env, p.rounds), NextStep(s.steps).value);
    BegunWorks(s, k, r);
    WorkIs(cfg, env, s, p, k);
    EndExact(cfg, s, p, r, k);
  }

  predicate WorkedTo(cfg: Config, s: RunState, p: Pass, r: StepResult, k: nat, t: RunState)
    requires k < |s.steps|
  {
    && t.transcript == s.transcript + r.state.conversation
    && t.batches == s.batches + r.state.batches
    && if p.stopAfter then t.ended && t.status.Stopped?
       else if r.summary.Some? then
         && !t.ended && t.status == s.status
         && t.steps == s.steps[k := s.steps[k].(status := StepStatus.Completed, result := r.summary)]
       else if ReplansFor(cfg, r) then !t.ended && t.steps == Replan(Begun(s, k, r), p).steps
       else FailedWith(s, k, Why(cfg, r.kind), t)
  }

  lemma WorkIs(cfg: Config, env: Env, s: RunState, p: Pass, k: nat)
    requires !s.ended && !p.stop && !p.inactive && NextStep(s.steps) == Some(k) && k < |s.steps|
    ensures var r := RunStep(cfg, env, p.rounds);
            OnePass(cfg, env, s, p) == AfterWork(cfg, Begun(s, k, r), s.steps[k].index, r, p)
  {
  }

  lemma EndExact(cfg: Config, s: RunState, p: Pass, r: StepResult, k: nat)
    requires k < |s.steps| && Working(Begun(s, k, r), k)
    ensures WorkedTo(cfg, s, p, r, k, AfterWork(cfg, Begun(s, k, r), s.steps[k].index, r, p))
  {
    var b := Begun(s, k, r);
    if p.stopAfter {
    } else if r.summary.Some? {
      SetStepAt(b, k, StepStatus.Completed, r.summary.value);
    } else {
      FailureExact(cfg, b, k, r, p);
      FailureTalk(cfg, b, k, r, p);
    }
  }

  lemma FailureTalk(cfg: Config, s: RunState, k: nat, r: StepResult, p: Pass)
    requires k < |s.steps|
    ensures var t := AfterFailure(cfg, s, s.steps[k].index, r, p);
            t.transcript == s.transcript && t.batches == s.batches
  {
    BranchExact(cfg, s, s.steps[k].index, r, p);
  }

  /** The state in which a worked step has ended. */
  function Begun(s: RunState, k: nat, r: StepResult): RunState
    requires k < |s.steps|
  {
    var t := Yield(StartStep(s, k), StepEvents);
    t.(transcript := t.transcript + r.state.conversation, batches := t.batches + r.state.batches)
  }

  lemma BegunWorks(s: RunState, k: nat, r: StepResult)
    requires RunInv(s) && !s.ended && NextStep(s.steps) == Some(k) && k < |s.steps|
    ensures Working(Begun(s, k, r), k)
  {
    StartOk(s, k);
  }

  // ---------- whole runs ----------

  predicate HasPending(steps: seq<PlanStep>) {
    exists i | 0 <= i < |steps| :: steps[i].status.Pending?
  }

  /** Every replanning seen is at once followed by a plan under way that has a pending step and
      the completed work of before. */
  predicate ReplansWell(seen: seq<Seen>) {
    forall i | 0 <= i < |seen| :: seen[i].event == Phase(ReplanningPhase) ==>
      && i + 1 < |seen| && seen[i + 1].event.PlanUpdated? && seen[i + 1].status.Executing?
      && HasPending(seen[i + 1].steps) && CompletedWork(seen[i + 1].steps) == CompletedWork(seen[i].steps)
  }

  lemma WellAppend(a: seq<Seen>, b: seq<Seen>)
    requires ReplansWell(a) && ReplansWell(b)
    ensures ReplansWell(a + b)
  {
    forall i | 0 <= i < |a + b| && (a + b)[i].event == Phase(ReplanningPhase)
      ensures && i + 1 < |a + b| && (a + b)[i + 1].event.PlanUpdated? && (a + b)[i + 1].status.Executing?
              && HasPending((a + b)[i + 1].steps)
              && CompletedWork((a + b)[i + 1].steps) == CompletedWork((a + b)[i].steps)
    {
      if i < |a| {
        assert a[i] == (a + b)[i];
      } else {
        assert b[i - |a|] == (a + b)[i];
      }
    }
  }

  lemma ReplanWell(s: RunState, k: nat, p: Pass)
    requires Working(s, k) && ReplansWell(s.seen)
    ensures ReplansWell(Replan(s, p).seen) && Replan(s, p).steps != []
  {
    ReplanExact(s, k, p);
    RevisedWell(s, k, Replan(s, p).steps, PlanTexts(p.revised, p.repair));
    WellAppend(s.seen, ReplanSeen(s, Replan(s, p).steps));
  }

  lemma RevisedWell(s: RunState, k: nat, steps: seq<PlanStep>, texts: seq<string>)
    requires Progress(s.steps, k) && (k < |s.steps| ==> !s.steps[k].status.Completed?)
    requires texts != [] && NewFrom(steps, k, texts) && k <= |s.steps|
    requires forall i | 0 <= i < k :: steps[i] == s.steps[i].(index := i + 1)
    ensures ReplansWell(ReplanSeen(s, steps))
  {
    NewPending(steps, k, texts);
    assert steps[k].status.Pending?;
    SameWork(s.steps, steps, k);
  }

  lemma YieldWell(s: RunState, e: AgentEvent)
    requires ReplansWell(s.seen) && e != Phase(ReplanningPhase)
    ensures ReplansWell(Yield(s, e).seen)
  {
    WellAppend(s.seen, [Seen(e, s.steps, s.status)]);
  }

  lemma FailWell(s: RunState, index: int, why: string)
    requires ReplansWell(s.seen) && s.steps != []
    ensures ReplansWell(FailRun(s, index, why).seen) && FailRun(s, index, why).steps != []
  {
    var t := SetStep(s, index, StepStatus.Failed, why).(status := PlanFailed);
    YieldWell(t, Phase(FailedPhase));
    YieldWell(Yield(t, Phase(FailedPhase)), PlanUpdated);
    YieldWell(Yield(Yield(t, Phase(FailedPhase)), PlanUpdated).(status := PlanFailed, ended := true), TaskFailed);
  }

  lemma EndWell(s: RunState, e: AgentEvent, status: PlanStatus)
    requires ReplansWell(s.seen) && Terminal(e)
    ensures ReplansWell(End(s, e, status).seen)
  {
    YieldWell(s.(status := status, ended := true), e);
  }

  lemma AfterWorkWell(cfg: Config, s: RunState, k: nat, r: StepResult, p: Pass)
    requires Working(s, k) && ReplansWell(s.seen)
    ensures var t := AfterWork(cfg, s, s.steps[k].index, r, p); ReplansWell(t.seen) && t.steps != []
  {
    var index := s.steps[k].index;
    if p.stopAfter {
      EndWell(s.(steps := StopRun(s).steps), TaskStopped, Stopped);
    } else if r.summary.Some? {
      YieldWell(SetStep(s, index, StepStatus.Completed, r.summary.value), PlanUpdated);
    } else if ReplansFor(cfg, r) {
      FailureExact(cfg, s, k, r, p);
      ReplanWell(s, k, p);
    } else {
      FailureWell(cfg, s, k, r, p);
    }
  }

  lemma FailureWell(cfg: Config, s: RunState, k: nat, r: StepResult, p: Pass)
    requires Working(s, k) && ReplansWell(s.seen) && !ReplansFor(cfg, r)
    ensures var t := AfterFailure(cfg, s, s.steps[k].index, r, p); ReplansWell(t.seen) && t.steps != []
  {
    FailWell(s, s.steps[k].index, Why(cfg, r.kind));
  }

  lemma PassWell(cfg: Config, env: Env, s: RunState, p: Pass)
    requires RunInv(s) && ReplansWell(s.seen) && s.steps != []
    ensures var t := OnePass(cfg, env, s, p); ReplansWell(t.seen) && t.steps != []
  {
    if !s.ended {
      WorksNext(s);
      if Works(s, p) {
        var (r, k) := (RunStep(cfg, env, p.rounds), NextStep(s.steps).value);
        BegunWorks(s, k, r);
        BegunWell(s, k, r);
        AfterWorkWell(cfg, Begun(s, k, r), k, r, p);
      } else {
        EndWell(s.(steps := StopRun(s).steps), TaskStopped, Stopped);
        EndWell(s, TaskTimedOut, TimedOut);
        EndWell(s, TaskComplete, Done);
      }
    }
  }

  lemma BegunWell(s: RunState, k: nat, r: StepResult)
    requires ReplansWell(s.seen) && k < |s.steps|
    ensures ReplansWell(Begun(s, k, r).seen)
  {
    var t := s.(steps := s.steps[k := s.steps[k].(status := InProgress)]);
    YieldWell(t, StepStarted(t.steps[k].index));
    YieldWell(StartStep(s, k), StepEvents);
  }

  lemma {:induction false} RunWell(cfg: Config, env: Env, s: RunState, passes: seq<Pass>)
    requires RunInv(s) && ReplansWell(s.seen) && s.steps != []
    ensures ReplansWell(Run(cfg, env, s, passes).seen) && Run(cfg, env, s, passes).steps != []
  {
    if passes != [] {
      var front := passes[..|passes| - 1];
      RunOk(cfg, env, s, front);
      RunWell(cfg, env, s, front);
      PassWell(cfg, env, Run(cfg, env, s, front), passes[|passes| - 1]);
    }
  }

  /** In every run from a plan with a step, or without a plan: a replanning always leaves a pending
      step, and a run that reports the task complete has completed at least one step. */
  lemma NoEmptyPlan(cfg: Config, env: Env, context: seq<Message>, plan: Option<seq<PlanStep>>, task: string,
                    passes: seq<Pass>)
    requires plan.Some? ==> Fresh(plan.value) && plan.value != []
    ensures var s := Run(cfg, env, Begin(context, plan, task), passes);
            && ReplansWell(s.seen) && s.steps != []
            && (s.status.Done? ==> AllCompleted(s.steps) && CompletedWork(s.steps) != [])
  {
    var s := Begin(context, plan, task);
    BeginOk(context, plan, task);
    RunWell(cfg, env, s, passes);
    RunOk(cfg, env, s, passes);
    DoneWorked(Run(cfg, env, s, passes));
  }

  lemma DoneWorked(s: RunState)
    requires RunInv(s) && s.steps != []
    ensures s.status.Done? ==> AllCompleted(s.steps) && CompletedWork(s.steps) != []
  {
    if s.status.Done? {
      var last := s.seen[|s.seen| - 1];
      assert SeenOk(last);
      WorkPrefix(s.steps, |s.steps|);
      assert |Records(s.steps[..|s.steps|])| == |s.steps|;
    }
  }
}
