/** The agent loop over a plan: steps in order, replanning, failure, timeout and stop. */
module AgentRun {
  import opened Text
  import opened Recovery
  import opened ToolBatch
  import opened Anthropic
  import opened StepLoop
  import opened Planner

  datatype PhaseName = PlanningPhase | ExecutingPhase | ReplanningPhase | FailedPhase

  datatype AgentEvent =
    | Phase(name: PhaseName)
    | PlanGenerated
    | StepStarted(index: int)
    | StepEvents                 // whatever the step itself yields
    | PlanUpdated
    | TaskComplete
    | TaskFailed
    | TaskTimedOut
    | TaskStopped

  predicate Terminal(e: AgentEvent) {
    e.TaskComplete? || e.TaskFailed? || e.TaskTimedOut? || e.TaskStopped?
  }

  /** An event together with the plan as it stands when the event is yielded. */
  datatype Seen = Seen(event: AgentEvent, steps: seq<PlanStep>, status: PlanStatus)

  datatype RunState = RunState(
    steps: seq<PlanStep>,
    status: PlanStatus,
    transcript: seq<Message>,
    batches: seq<seq<Event>>,      // what every tool batch of the run did
    seen: seq<Seen>,
    ended: bool)

  /** What the outside world does during one turn of the loop. */
  datatype Pass = Pass(
    stop: bool,                                  // a stop was requested before the turn
    inactive: bool,                              // the inactivity timeout has passed
    rounds: nat -> Round,                        // the step's rounds
    stopAfter: bool,                             // a stop was requested during the step
    revised: Option<seq<Option<string>>>,        // the planner's reply if it is asked
    repair: bool)

  function Yield(s: RunState, e: AgentEvent): RunState {
    s.(seen := s.seen + [Seen(e, s.steps, s.status)])
  }

  function End(s: RunState, e: AgentEvent, status: PlanStatus): RunState {
    Yield(s.(status := status, ended := true), e)
  }

  // ---------- the loop ----------

  function Begin(context: seq<Message>, plan: Option<seq<PlanStep>>, task: string): RunState {
    var steps := if plan.Some? then plan.value else [NewStep(1, task)];
    var planning := if plan.Some? then plan.value else [];
    var s := RunState(steps, Executing, context, [], [Seen(Phase(PlanningPhase), planning, Planning)], false);
    Yield(Yield(s, PlanGenerated), Phase(ExecutingPhase))
  }

  function FirstInProgress(steps: seq<PlanStep>): Option<nat> {
    if steps == [] then None
    else if steps[0].status.InProgress? then Some(0)
    else
      var rest := FirstInProgress(steps[1..]);
      if rest.Some? then Some(rest.value + 1) else None
  }

  /** The end of a stopped run. The interrupted step is marked skipped only if some step is
      still pending. */
  function StopRun(s: RunState): RunState {
    var current := FirstInProgress(s.steps);
    var steps :=
      if NextStep(s.steps).Some? && current.Some? && current.value < |s.steps| then
        s.steps[current.value := WithStatus(s.steps[current.value], Skipped, Some("Stopped by user."))]
      else s.steps;
    End(s.(steps := steps), TaskStopped, Stopped)
  }

  function CompletedSteps(steps: seq<PlanStep>): seq<PlanStep> {
    if steps == [] then []
    else CompletedSteps(steps[..|steps| - 1]) +
         (if steps[|steps| - 1].status.Completed? then [steps[|steps| - 1]] else [])
  }

  function PendingSteps(steps: seq<PlanStep>): seq<PlanStep> {
    if steps == [] then []
    else PendingSteps(steps[..|steps| - 1]) +
         (if steps[|steps| - 1].status.Pending? then [NewStep(0, steps[|steps| - 1].description)] else [])
  }

  /** `_preserve_completed_steps`. */
  function Preserved(current: seq<PlanStep>, revised: seq<PlanStep>): seq<PlanStep> {
    Renumbered(CompletedSteps(current) + PendingSteps(revised))
  }

  function Replan(s: RunState, p: Pass): RunState {
    var asked := Yield(s, Phase(ReplanningPhase));
    var revised := asked.(steps := Preserved(s.steps, ParsePlan(p.revised, p.repair)), status := Executing);
    Yield(Yield(revised, PlanUpdated), Phase(ExecutingPhase))
  }

  function SetStep(s: RunState, index: int, status: StepStatus, result: string): RunState {
    var steps := UpdateStep(s.steps, index, status, Some(result));
    s.(steps := if steps.Some? then steps.value else s.steps)
  }

  function FailRun(s: RunState, index: int, why: string): RunState {
    var t := SetStep(s, index, StepStatus.Failed, why).(status := PlanFailed);
    End(Yield(Yield(t, Phase(FailedPhase)), PlanUpdated), TaskFailed, PlanFailed)
  }

  /** The branches after a step without an answer, in the order of the code. */
  function AfterFailure(cfg: Config, s: RunState, index: int, r: StepResult, p: Pass): RunState {
    if (r.kind.ToolBudget? || r.kind.ModelBudget?) && r.state.failure.Some?
       && ShouldReplan(r.state.failure.value.failureClass) then Replan(s, p)
    else if r.kind.ModelBudget? then FailRun(s, index, "Repeated model errors.")
    else if r.kind.ToolBudget? && cfg.unified then FailRun(s, index, "Repeated tool failures.")
    else if cfg.unified then FailRun(s, index, "Unified turn loop could not complete step.")
    else if r.state.attempts >= cfg.maxErrors then Replan(s, p)
    else FailRun(s, index, "Step did not complete successfully.")
  }

  function StartStep(s: RunState, k: nat): RunState
    requires k < |s.steps|
  {
    var t := s.(steps := s.steps[k := s.steps[k].(status := InProgress)]);
    Yield(t, StepStarted(t.steps[k].index))
  }

  function WorkStep(cfg: Config, env: Env, s: RunState, k: nat, p: Pass): RunState
    requires k < |s.steps|
  {
    var r := RunStep(cfg, env, p.rounds);
    var worked := Yield(StartStep(s, k), StepEvents);
    var t := worked.(transcript := worked.transcript + r.state.conversation,
                     batches := worked.batches + r.state.batches);
    AfterWork(cfg, t, s.steps[k].index, r, p)
  }

  /** What the end of a step leads to. */
  function AfterWork(cfg: Config, s: RunState, index: int, r: StepResult, p: Pass): RunState {
    if p.stopAfter then StopRun(s)
    else if r.summary.None? then AfterFailure(cfg, s, index, r, p)
    else Yield(SetStep(s, index, StepStatus.Completed, r.summary.value), PlanUpdated)
  }

  /** One turn of the `while` loop, or its exit. */
  function OnePass(cfg: Config, env: Env, s: RunState, p: Pass): RunState {
    if s.ended then s
    else if p.stop then StopRun(s)
    else if p.inactive then End(s, TaskTimedOut, TimedOut)
    else
      match NextStep(s.steps)
      case None => End(s, TaskComplete, Done)
      case Some(k) => if k < |s.steps| then WorkStep(cfg, env, s, k, p) else s
  }

  function Run(cfg: Config, env: Env, s: RunState, passes: seq<Pass>): RunState {
    if passes == [] then s else OnePass(cfg, env, Run(cfg, env, s, passes[..|passes| - 1]), passes[|passes| - 1])
  }

  // ---------- the shape of the plan ----------

  /** Completed steps up to `k`, pending steps after `k`. */
  predicate Progress(steps: seq<PlanStep>, k: nat) {
    && k <= |steps|
    && (forall i | 0 <= i < k :: steps[i].status.Completed?)
    && (forall i | k < i < |steps| :: steps[i].status.Pending?)
  }

  /** What an observer of an event sees of the plan. */
  predicate SeenAt(x: Seen, k: nat) {
    && Progress(x.steps, k)
    && match x.event
       case TaskComplete => x.status.Done? && k == |x.steps|
       case TaskFailed => x.status.PlanFailed? && k < |x.steps| && x.steps[k].status.Failed?
       case TaskTimedOut => x.status.TimedOut? && (k < |x.steps| ==> x.steps[k].status.Pending?)
       case TaskStopped =>
         && x.status.Stopped?
         && (k < |x.steps| ==> match x.steps[k].status
                               case Pending => true
                               case InProgress => k == |x.steps| - 1
                               case Skipped => k < |x.steps| - 1
                               case _ => false)
       case _ =>
         if x.status.PlanFailed? then k < |x.steps| && x.steps[k].status.Failed?
         else
           && (x.status.Executing? || x.status.Planning?)
           && (k < |x.steps| ==> x.steps[k].status.Pending? || x.steps[k].status.InProgress?)
  }

  ghost predicate SeenOk(x: Seen) {
    exists k: nat :: SeenAt(x, k)
  }

  ghost predicate AllSeenOk(seen: seq<Seen>) {
    forall i | 0 <= i < |seen| :: SeenOk(seen[i])
  }

  predicate NoTerminal(seen: seq<Seen>) {
    forall i | 0 <= i < |seen| :: !Terminal(seen[i].event)
  }

  /** Between turns the steps are completed ones and then pending ones. */
  ghost predicate RunInv(s: RunState) {
    && AllSeenOk(s.seen)
    && if s.ended then
         && s.seen != []
         && NoTerminal(s.seen[..|s.seen| - 1])
         && var last := s.seen[|s.seen| - 1];
            Terminal(last.event) && last.steps == s.steps && last.status == s.status
       else
         && s.status.Executing?
         && NoTerminal(s.seen)
         && DistinctIndices(s.steps)
         && exists k: nat :: Progress(s.steps, k) && (k < |s.steps| ==> s.steps[k].status.Pending?)
  }

  predicate Fresh(steps: seq<PlanStep>) {
    AllPending(steps) && DistinctIndices(steps)
  }

  /** A turn that is under way: step `k` is in progress, the rest in order. */
  ghost predicate Working(s: RunState, k: nat) {
    && !s.ended && s.status.Executing? && NoTerminal(s.seen) && AllSeenOk(s.seen)
    && Progress(s.steps, k) && k < |s.steps| && s.steps[k].status.InProgress? && DistinctIndices(s.steps)
  }

  lemma YieldOk(s: RunState, e: AgentEvent, k: nat)
    requires AllSeenOk(s.seen) && SeenAt(Seen(e, s.steps, s.status), k)
    ensures AllSeenOk(Yield(s, e).seen)
    ensures NoTerminal(s.seen) && !Terminal(e) ==> NoTerminal(Yield(s, e).seen)
  {
  }

  lemma EndOk(s: RunState, e: AgentEvent, status: PlanStatus, k: nat)
    requires !s.ended && AllSeenOk(s.seen) && NoTerminal(s.seen)
    requires Terminal(e) && SeenAt(Seen(e, s.steps, status), k)
    ensures RunInv(End(s, e, status))
  {
    var t := End(s, e, status);
    assert t.seen[..|t.seen| - 1] == s.seen;
    YieldOk(s.(status := status, ended := true), e, k);
  }

  lemma {:induction false} FirstInProgressExact(steps: seq<PlanStep>)
    ensures match FirstInProgress(steps)
            case None => forall i | 0 <= i < |steps| :: !steps[i].status.InProgress?
            case Some(k) =>
              k < |steps| && steps[k].status.InProgress? && forall i | 0 <= i < k :: !steps[i].status.InProgress?
  {
    if steps != [] {
      FirstInProgressExact(steps[1..]);
    }
  }

  lemma StopOk(s: RunState, k: nat)
    requires !s.ended && AllSeenOk(s.seen) && NoTerminal(s.seen) && Progress(s.steps, k)
    requires k < |s.steps| ==> s.steps[k].status.Pending? || s.steps[k].status.InProgress?
    ensures RunInv(StopRun(s))
  {
    FirstInProgressExact(s.steps);
    NextStepExact(s.steps);
    var steps := StopRun(s).steps;
    assert k + 1 < |s.steps| ==> s.steps[k + 1].status.Pending?;
    assert SeenAt(Seen(TaskStopped, steps, Stopped), k);
    EndOk(s.(steps := steps), TaskStopped, Stopped, k);
  }

  lemma {:induction false} CompletedPrefix(steps: seq<PlanStep>, k: nat)
    requires Progress(steps, k) && (k < |steps| ==> !steps[k].status.Completed?)
    ensures CompletedSteps(steps) == steps[..k]
  {
    if steps != [] {
      var front := steps[..|steps| - 1];
      if k == |steps| {
        CompletedPrefix(front, k - 1);
        assert steps[..k] == front[..k - 1] + [steps[k - 1]];
      } else {
        CompletedPrefix(front, k);
        assert steps[..k] == front[..k];
      }
    }
  }

  lemma {:induction false} PendingAllPending(steps: seq<PlanStep>)
    ensures AllPending(PendingSteps(steps))
  {
    if steps != [] {
      PendingAllPending(steps[..|steps| - 1]);
    }
  }

  /** Replanning keeps the completed steps in front and has only pending steps behind them. */
  lemma PreservedShape(steps: seq<PlanStep>, k: nat, revised: seq<PlanStep>)
    requires Progress(steps, k) && k < |steps| && steps[k].status.InProgress?
    ensures var kept := Preserved(steps, revised);
            && Progress(kept, k) && DistinctIndices(kept) && (k < |kept| ==> kept[k].status.Pending?)
            && CompletedSteps(kept) == Renumbered(steps[..k])
  {
    CompletedPrefix(steps, k);
    PendingAllPending(revised);
    var kept := Preserved(steps, revised);
    assert |kept| == k + |PendingSteps(revised)|;
    assert forall i | 0 <= i < k :: kept[i] == steps[i].(index := i + 1);
    assert forall i | k <= i < |kept| :: kept[i] == PendingSteps(revised)[i - k].(index := i + 1);
    CompletedPrefix(kept, k);
  }

  lemma ReplanOk(s: RunState, k: nat, p: Pass)
    requires Working(s, k)
    ensures RunInv(Replan(s, p)) && !Replan(s, p).ended
  {
    var asked := Yield(s, Phase(ReplanningPhase));
    YieldOk(s, Phase(ReplanningPhase), k);
    PreservedShape(s.steps, k, ParsePlan(p.revised, p.repair));
    var steps := Preserved(s.steps, ParsePlan(p.revised, p.repair));
    var revised := asked.(steps := steps, status := Executing);
    YieldOk(revised, PlanUpdated, k);
    YieldOk(Yield(revised, PlanUpdated), Phase(ExecutingPhase), k);
  }

  lemma SetStepAt(s: RunState, k: nat, status: StepStatus, result: string)
    requires k < |s.steps| && DistinctIndices(s.steps)
    ensures SetStep(s, s.steps[k].index, status, result)
            == s.(steps := s.steps[k := WithStatus(s.steps[k], status, Some(result))])
  {
    PositionExact(s.steps, k);
  }

  lemma FailOk(s: RunState, k: nat, why: string)
    requires Working(s, k)
    ensures RunInv(FailRun(s, s.steps[k].index, why))
  {
    SetStepAt(s, k, StepStatus.Failed, why);
    var t := SetStep(s, s.steps[k].index, StepStatus.Failed, why).(status := PlanFailed);
    assert Progress(t.steps, k) && t.steps[k].status.Failed?;
    YieldOk(t, Phase(FailedPhase), k);
    YieldOk(Yield(t, Phase(FailedPhase)), PlanUpdated, k);
    EndOk(Yield(Yield(t, Phase(FailedPhase)), PlanUpdated), TaskFailed, PlanFailed, k);
  }

  lemma CompleteOk(s: RunState, k: nat, summary: string)
    requires Working(s, k)
    ensures RunInv(Yield(SetStep(s, s.steps[k].index, StepStatus.Completed, summary), PlanUpdated))
  {
    SetStepAt(s, k, StepStatus.Completed, summary);
    var t := SetStep(s, s.steps[k].index, StepStatus.Completed, summary);
    assert Progress(t.steps, k + 1);
    YieldOk(t, PlanUpdated, k + 1);
  }

  lemma StartOk(s: RunState, k: nat)
    requires RunInv(s) && !s.ended && NextStep(s.steps) == Some(k) && k < |s.steps|
    ensures Working(Yield(StartStep(s, k), StepEvents), k)
  {
    NextStepExact(s.steps);
    var j: nat :| Progress(s.steps, j) && (j < |s.steps| ==> s.steps[j].status.Pending?);
    assert j == k;
    var t := s.(steps := s.steps[k := s.steps[k].(status := InProgress)]);
    YieldOk(t, StepStarted(t.steps[k].index), k);
    YieldOk(StartStep(s, k), StepEvents, k);
  }

  lemma WorkOk(cfg: Config, env: Env, s: RunState, k: nat, p: Pass)
    requires RunInv(s) && !s.ended && NextStep(s.steps) == Some(k) && k < |s.steps|
    ensures RunInv(WorkStep(cfg, env, s, k, p))
  {
    var r := RunStep(cfg, env, p.rounds);
    var worked := Yield(StartStep(s, k), StepEvents);
    StartOk(s, k);
    var t := worked.(transcript := worked.transcript + r.state.conversation,
                     batches := worked.batches + r.state.batches);
    assert Working(t, k) && t.steps[k].index == s.steps[k].index;
    if p.stopAfter {
      StopOk(t, k);
    } else if r.summary.Some? {
      CompleteOk(t, k, r.summary.value);
    } else {
      FailureOk(cfg, t, k, r, p);
    }
  }

  lemma FailureOk(cfg: Config, s: RunState, k: nat, r: StepResult, p: Pass)
    requires Working(s, k)
    ensures RunInv(AfterFailure(cfg, s, s.steps[k].index, r, p))
  {
    ReplanOk(s, k, p);
    FailOk(s, k, "Repeated model errors.");
    FailOk(s, k, "Repeated tool failures.");
    FailOk(s, k, "Unified turn loop could not complete step.");
    FailOk(s, k, "Step did not complete successfully.");
  }

  lemma PassOk(cfg: Config, env: Env, s: RunState, p: Pass)
    requires RunInv(s)
    ensures RunInv(OnePass(cfg, env, s, p))
  {
    if !s.ended {
      var k: nat :| Progress(s.steps, k) && (k < |s.steps| ==> s.steps[k].status.Pending?);
      NextStepExact(s.steps);
      if p.stop {
        StopOk(s, k);
      } else if p.inactive {
        EndOk(s, TaskTimedOut, TimedOut, k);
      } else if NextStep(s.steps).None? {
        assert k == |s.steps|;
        EndOk(s, TaskComplete, Done, k);
      } else {
        WorkOk(cfg, env, s, NextStep(s.steps).value, p);
      }
    }
  }

  lemma BeginOk(context: seq<Message>, plan: Option<seq<PlanStep>>, task: string)
    requires plan.Some? ==> Fresh(plan.value)
    ensures RunInv(Begin(context, plan, task))
  {
    var s := Begin(context, plan, task);
    forall i | 0 <= i < |s.seen| ensures SeenOk(s.seen[i]) {
      assert SeenAt(s.seen[i], 0);
    }
    assert Progress(s.steps, 0);
  }

  lemma {:induction false} RunOk(cfg: Config, env: Env, s: RunState, passes: seq<Pass>)
    requires RunInv(s)
    ensures RunInv(Run(cfg, env, s, passes))
  {
    if passes != [] {
      RunOk(cfg, env, s, passes[..|passes| - 1]);
      PassOk(cfg, env, Run(cfg, env, s, passes[..|passes| - 1]), passes[|passes| - 1]);
    }
  }

  /** Every run from a fresh plan, whatever models, tools, planner, clock and user do: each
      event shows completed steps, at most one other started step, then pending steps; there
      is no terminal event until the run ends, and then exactly one, as the last event, and it
      agrees with the plan's status; completion means that every step is completed. */
  lemma RunShape(cfg: Config, env: Env, context: seq<Message>, plan: Option<seq<PlanStep>>, task: string,
                 passes: seq<Pass>)
    requires plan.Some? ==> Fresh(plan.value)
    ensures var s := Run(cfg, env, Begin(context, plan, task), passes);
            && AllSeenOk(s.seen)
            && (!s.ended ==> NoTerminal(s.seen))
            && (s.ended ==>
                  && s.seen != [] && NoTerminal(s.seen[..|s.seen| - 1])
                  && var last := s.seen[|s.seen| - 1];
                     && Terminal(last.event) && last.steps == s.steps && last.status == s.status
                     && (last.event.TaskComplete? <==> s.status.Done?)
                     && (last.event.TaskFailed? <==> s.status.PlanFailed?)
                     && (last.event.TaskTimedOut? <==> s.status.TimedOut?)
                     && (last.event.TaskStopped? <==> s.status.Stopped?)
                     && (last.event.TaskComplete? ==> forall i | 0 <= i < |s.steps| :: s.steps[i].status.Completed?))
  {
    BeginOk(context, plan, task);
    RunOk(cfg, env, Begin(context, plan, task), passes);
    var s := Run(cfg, env, Begin(context, plan, task), passes);
    if s.ended {
      assert SeenOk(s.seen[|s.seen| - 1]);
    }
  }

  lemma PassTranscript(cfg: Config, env: Env, s: RunState, p: Pass)
    ensures OnePass(cfg, env, s, p).transcript == s.transcript
         || OnePass(cfg, env, s, p).transcript == s.transcript + RunStep(cfg, env, p.rounds).state.conversation
  {
  }

  lemma {:induction false} RunPaired(cfg: Config, env: Env, s: RunState, passes: seq<Pass>)
    requires Paired(s.transcript)
    ensures Paired(Run(cfg, env, s, passes).transcript)
  {
    if passes != [] {
      var (front, p) := (passes[..|passes| - 1], passes[|passes| - 1]);
      RunPaired(cfg, env, s, front);
      PassTranscript(cfg, env, Run(cfg, env, s, front), p);
      StepGuarantees(cfg, env, p.rounds);
      PairedConcat(Run(cfg, env, s, front).transcript, RunStep(cfg, env, p.rounds).state.conversation);
    }
  }

  /** Through every run a well paired conversation stays so, and the provider format puts each
      call next to its results and loses no message. */
  lemma RunConversation(cfg: Config, env: Env, context: seq<Message>, plan: Option<seq<PlanStep>>, task: string,
                        passes: seq<Pass>)
    requires Paired(context)
    ensures var s := Run(cfg, env, Begin(context, plan, task), passes);
            && Paired(s.transcript)
            && CallsMeetResults(Format(env.parse, s.transcript))
            && Flatten(Format(env.parse, s.transcript)) == Items(env.parse, s.transcript)
  {
    RunPaired(cfg, env, Begin(context, plan, task), passes);
    var s := Run(cfg, env, Begin(context, plan, task), passes);
    PairedMeets(env.parse, s.transcript);
    FormatLossless(env.parse, s.transcript);
  }

  // ---------- no tool runs without leave ----------

  ghost predicate ReadOnlyPass(p: Pass) {
    forall k: nat :: ReadOnlyRound(p.rounds(k))
  }

  lemma PassBatches(cfg: Config, env: Env, s: RunState, p: Pass)
    ensures OnePass(cfg, env, s, p).batches == s.batches
         || OnePass(cfg, env, s, p).batches == s.batches + RunStep(cfg, env, p.rounds).state.batches
  {
  }

  /** In every run each tool execution comes after an approved decision on its own call, or
      after a request for that call that was answered yes; and if the posture is read-only
      throughout, only read-only tools are ever executed. */
  lemma {:induction false} RunSafe(cfg: Config, env: Env, s: RunState, passes: seq<Pass>, readOnly: bool)
    requires SafeBatches(s.batches, readOnly)
    requires readOnly ==> forall i | 0 <= i < |passes| :: ReadOnlyPass(passes[i])
    ensures SafeBatches(Run(cfg, env, s, passes).batches, readOnly)
  {
    if passes != [] {
      var (front, p) := (passes[..|passes| - 1], passes[|passes| - 1]);
      RunSafe(cfg, env, s, front, readOnly);
      PassBatches(cfg, env, Run(cfg, env, s, front), p);
      StepSafe(cfg, env, p.rounds, readOnly);
    }
  }

  // ---------- a posture that changes after the check ----------

  /** The turn works on a step. */
  predicate WorksStep(s: RunState, p: Pass) {
    && !s.ended && !p.stop && !p.inactive
    && NextStep(s.steps).Some? && NextStep(s.steps).value < |s.steps|
  }

  lemma WorkBatches(cfg: Config, env: Env, s: RunState, p: Pass)
    ensures OnePass(cfg, env, s, p).batches ==
            s.batches + if WorksStep(s, p) then RunStep(cfg, env, p.rounds).state.batches else []
  {
    Unit(s.batches);
  }

  lemma BreaksConcat(a: seq<seq<Event>>, b: seq<seq<Event>>)
    ensures AnyBreaks(a + b) <==> AnyBreaks(a) || AnyBreaks(b)
  {
    if i :| 0 <= i < |a| && BreaksReadOnly(a[i]) {
      assert BreaksReadOnly((a + b)[i]);
    }
    if i :| 0 <= i < |b| && BreaksReadOnly(b[i]) {
      assert BreaksReadOnly((a + b)[|a| + i]);
    }
  }

  /** In some turn of the run, in a call of a round that its step reaches, the posture became
      read-only after the check. */
  ghost predicate OvertakenRun(cfg: Config, env: Env, s: RunState, passes: seq<Pass>) {
    passes != [] &&
    var (front, p) := (passes[..|passes| - 1], passes[|passes| - 1]);
    || OvertakenRun(cfg, env, s, front)
    || (WorksStep(Run(cfg, env, s, front), p) && OvertakenWithin(cfg, env, p.rounds, cfg.maxRounds))
  }

  lemma PassSwitch(cfg: Config, env: Env, s: RunState, p: Pass)
    ensures AnyBreaks(OnePass(cfg, env, s, p).batches) <==>
            AnyBreaks(s.batches) || (WorksStep(s, p) && OvertakenWithin(cfg, env, p.rounds, cfg.maxRounds))
  {
    WorkBatches(cfg, env, s, p);
    StepSwitchExact(cfg, env, p.rounds);
    BreaksConcat(s.batches, RunStep(cfg, env, p.rounds).state.batches);
    Unit(s.batches);
  }

  /** For every run: a tool with side effects runs under a read-only posture if and only if in some
      turn, in a round its step reaches, a permitted call is overtaken by the change. */
  lemma {:induction false} RunSwitchExact(cfg: Config, env: Env, s: RunState, passes: seq<Pass>)
    requires !AnyBreaks(s.batches)
    ensures AnyBreaks(Run(cfg, env, s, passes).batches) <==> OvertakenRun(cfg, env, s, passes)
  {
    if passes != [] {
      var (front, p) := (passes[..|passes| - 1], passes[|passes| - 1]);
      RunSwitchExact(cfg, env, s, front);
      PassSwitch(cfg, env, Run(cfg, env, s, front), p);
    }
  }

  ghost predicate SteadyPass(p: Pass) {
    forall k: nat :: SteadyRound(p.rounds(k))
  }

  lemma {:induction false} SteadyRun(cfg: Config, env: Env, s: RunState, passes: seq<Pass>)
    requires forall i | 0 <= i < |passes| :: SteadyPass(passes[i])
    ensures !OvertakenRun(cfg, env, s, passes)
  {
    if passes != [] {
      SteadyRun(cfg, env, s, passes[..|passes| - 1]);
      SteadyNeverOvertaken(cfg, env, passes[|passes| - 1].rounds, cfg.maxRounds);
    }
  }

  /** What a caller can see to: if the posture never changes between a check and the run it
      permits, no tool with side effects ever runs under a read-only posture. */
  lemma SteadyRunSafe(cfg: Config, env: Env, s: RunState, passes: seq<Pass>)
    requires !AnyBreaks(s.batches)
    requires forall i | 0 <= i < |passes| :: SteadyPass(passes[i])
    ensures !AnyBreaks(Run(cfg, env, s, passes).batches)
  {
    RunSwitchExact(cfg, env, s, passes);
    SteadyRun(cfg, env, s, passes);
  }

  // ---------- completed work is never lost ----------

  datatype Record = Record(description: string, result: Option<string>)

  /** The completed descriptions and results, in order. */
  function CompletedWork(steps: seq<PlanStep>): seq<Record> {
    if steps == [] then []
    else
      var last := steps[|steps| - 1];
      CompletedWork(steps[..|steps| - 1]) +
      (if last.status.Completed? then [Record(last.description, last.result)] else [])
  }

  function Records(steps: seq<PlanStep>): seq<Record> {
    seq(|steps|, i requires 0 <= i < |steps| => Record(steps[i].description, steps[i].result))
  }

  lemma {:induction false} WorkPrefix(steps: seq<PlanStep>, k: nat)
    requires Progress(steps, k) && (k < |steps| ==> !steps[k].status.Completed?)
    ensures CompletedWork(steps) == Records(steps[..k])
  {
    if steps != [] {
      var front := steps[..|steps| - 1];
      if k == |steps| {
        WorkPrefix(front, k - 1);
        assert front[..k - 1] == steps[..k - 1];
        assert Records(steps[..k]) == Records(steps[..k - 1]) + [Record(steps[k - 1].description, steps[k - 1].result)];
      } else {
        WorkPrefix(front, k);
        assert steps[..k] == front[..k];
      }
    }
  }

  /** Two plans whose steps agree up to `k`, apart from numbering, hold the same completed work
      when neither has a completed step at `k` or later. */
  lemma SameWork(a: seq<PlanStep>, b: seq<PlanStep>, k: nat)
    requires Progress(a, k) && (k < |a| ==> !a[k].status.Completed?)
    requires Progress(b, k) && (k < |b| ==> !b[k].status.Completed?)
    requires forall i | 0 <= i < k :: a[i].description == b[i].description && a[i].result == b[i].result
    ensures CompletedWork(a) == CompletedWork(b)
  {
    WorkPrefix(a, k);
    WorkPrefix(b, k);
    assert Records(a[..k]) == Records(b[..k]);
  }

  /** The completed work seen so far only ever grew by appending, up to the present plan. */
  predicate Grew(s: RunState) {
    && (forall i | 0 <= i < |s.seen| :: CompletedWork(s.seen[i].steps) <= CompletedWork(s.steps))
    && (forall i, j | 0 <= i < j < |s.seen| :: CompletedWork(s.seen[i].steps) <= CompletedWork(s.seen[j].steps))
  }

  lemma YieldGrew(s: RunState, e: AgentEvent)
    requires Grew(s)
    ensures Grew(Yield(s, e))
  {
    var t := Yield(s, e);
    assert t.seen[|s.seen|].steps == s.steps;
  }

  lemma ChangeGrew(s: RunState, t: RunState)
    requires Grew(s) && t.seen == s.seen && CompletedWork(s.steps) <= CompletedWork(t.steps)
    ensures Grew(t)
  {
  }

  lemma StopGrew(s: RunState, k: nat)
    requires Grew(s) && Progress(s.steps, k)
    requires k < |s.steps| ==> s.steps[k].status.Pending? || s.steps[k].status.InProgress?
    ensures Grew(StopRun(s))
  {
    FirstInProgressExact(s.steps);
    var steps := StopRun(s).steps;
    SameWork(s.steps, steps, k);
    ChangeGrew(s, s.(steps := steps));
    YieldGrew(s.(steps := steps, status := Stopped, ended := true), TaskStopped);
  }

  lemma ReplanGrew(s: RunState, k: nat, p: Pass)
    requires Grew(s) && Working(s, k)
    ensures Grew(Replan(s, p))
  {
    var asked := Yield(s, Phase(ReplanningPhase));
    YieldGrew(s, Phase(ReplanningPhase));
    var steps := Preserved(s.steps, ParsePlan(p.revised, p.repair));
    PreservedShape(s.steps, k, ParsePlan(p.revised, p.repair));
    CompletedPrefix(s.steps, k);
    assert forall i | 0 <= i < k :: steps[i] == s.steps[i].(index := i + 1);
    SameWork(s.steps, steps, k);
    var revised := asked.(steps := steps, status := Executing);
    ChangeGrew(asked, revised);
    YieldGrew(revised, PlanUpdated);
    YieldGrew(Yield(revised, PlanUpdated), Phase(ExecutingPhase));
  }

  lemma FailGrew(s: RunState, k: nat, why: string)
    requires Grew(s) && Working(s, k)
    ensures Grew(FailRun(s, s.steps[k].index, why))
  {
    SetStepAt(s, k, StepStatus.Failed, why);
    var t := SetStep(s, s.steps[k].index, StepStatus.Failed, why).(status := PlanFailed);
    SameWork(s.steps, t.steps, k);
    ChangeGrew(s, t);
    YieldGrew(t, Phase(FailedPhase));
    YieldGrew(Yield(t, Phase(FailedPhase)), PlanUpdated);
    YieldGrew(Yield(Yield(t, Phase(FailedPhase)), PlanUpdated).(status := PlanFailed, ended := true), TaskFailed);
  }

  /** Completing step `k` appends exactly its description and summary. */
  lemma CompletionAppends(s: RunState, k: nat, summary: string)
    requires Working(s, k)
    ensures CompletedWork(SetStep(s, s.steps[k].index, StepStatus.Completed, summary).steps)
            == CompletedWork(s.steps) + [Record(s.steps[k].description, Some(summary))]
  {
    SetStepAt(s, k, StepStatus.Completed, summary);
    var t := SetStep(s, s.steps[k].index, StepStatus.Completed, summary);
    WorkPrefix(s.steps, k);
    WorkPrefix(t.steps, k + 1);
    assert Records(t.steps[..k + 1]) == Records(s.steps[..k]) + [Record(s.steps[k].description, Some(summary))];
  }

  lemma FailureGrew(cfg: Config, s: RunState, k: nat, r: StepResult, p: Pass)
    requires Grew(s) && Working(s, k)
    ensures Grew(AfterFailure(cfg, s, s.steps[k].index, r, p))
  {
    ReplanGrew(s, k, p);
    FailGrew(s, k, "Repeated model errors.");
    FailGrew(s, k, "Repeated tool failures.");
    FailGrew(s, k, "Unified turn loop could not complete step.");
    FailGrew(s, k, "Step did not complete successfully.");
  }

  lemma StartGrew(s: RunState, k: nat)
    requires Grew(s) && k < |s.steps| && Progress(s.steps, k) && s.steps[k].status.Pending?
    ensures Grew(Yield(StartStep(s, k), StepEvents))
  {
    var t := s.(steps := s.steps[k := s.steps[k].(status := InProgress)]);
    SameWork(s.steps, t.steps, k);
    ChangeGrew(s, t);
    YieldGrew(t, StepStarted(t.steps[k].index));
    YieldGrew(StartStep(s, k), StepEvents);
  }

  lemma WorkGrew(cfg: Config, env: Env, s: RunState, k: nat, p: Pass)
    requires Grew(s) && RunInv(s) && !s.ended && NextStep(s.steps) == Some(k) && k < |s.steps|
    ensures Grew(WorkStep(cfg, env, s, k, p))
  {
    var r := RunStep(cfg, env, p.rounds);
    var worked := Yield(StartStep(s, k), StepEvents);
    StartOk(s, k);
    NextStepExact(s.steps);
    StartGrew(s, k);
    var t := worked.(transcript := worked.transcript + r.state.conversation,
                     batches := worked.batches + r.state.batches);
    assert Working(t, k) && t.steps[k].index == s.steps[k].index;
    ChangeGrew(worked, t);
    if p.stopAfter {
      StopGrew(t, k);
    } else if r.summary.Some? {
      CompletionAppends(t, k, r.summary.value);
      var u := SetStep(t, t.steps[k].index, StepStatus.Completed, r.summary.value);
      ChangeGrew(t, u);
      YieldGrew(u, PlanUpdated);
    } else {
      FailureGrew(cfg, t, k, r, p);
    }
  }

  lemma PassGrew(cfg: Config, env: Env, s: RunState, p: Pass)
    requires Grew(s) && RunInv(s)
    ensures Grew(OnePass(cfg, env, s, p))
  {
    if !s.ended {
      var k: nat :| Progress(s.steps, k) && (k < |s.steps| ==> s.steps[k].status.Pending?);
      NextStepExact(s.steps);
      if p.stop {
        StopGrew(s, k);
      } else if p.inactive {
        YieldGrew(s.(status := TimedOut, ended := true), TaskTimedOut);
      } else if NextStep(s.steps).None? {
        YieldGrew(s.(status := Done, ended := true), TaskComplete);
      } else {
        WorkGrew(cfg, env, s, NextStep(s.steps).value, p);
      }
    }
  }

  lemma {:induction false} RunGrew(cfg: Config, env: Env, s: RunState, passes: seq<Pass>)
    requires Grew(s) && RunInv(s)
    ensures Grew(Run(cfg, env, s, passes))
  {
    if passes != [] {
      RunGrew(cfg, env, s, passes[..|passes| - 1]);
      RunOk(cfg, env, s, passes[..|passes| - 1]);
      PassGrew(cfg, env, Run(cfg, env, s, passes[..|passes| - 1]), passes[|passes| - 1]);
    }
  }

  /** Between any two events of a run, across any number of replans, the list of completed
      descriptions and results only grows by appending. */
  lemma CompletedWorkGrows(cfg: Config, env: Env, context: seq<Message>, plan: Option<seq<PlanStep>>, task: string,
                           passes: seq<Pass>)
    requires plan.Some? ==> Fresh(plan.value)
    ensures var s := Run(cfg, env, Begin(context, plan, task), passes);
            && (forall i, j | 0 <= i < j < |s.seen| :: CompletedWork(s.seen[i].steps) <= CompletedWork(s.seen[j].steps))
            && (forall i | 0 <= i < |s.seen| :: CompletedWork(s.seen[i].steps) <= CompletedWork(s.steps))
  {
    BeginOk(context, plan, task);
    BeginGrew(context, plan, task);
    RunGrew(cfg, env, Begin(context, plan, task), passes);
  }

  lemma BeginGrew(context: seq<Message>, plan: Option<seq<PlanStep>>, task: string)
    requires plan.Some? ==> Fresh(plan.value)
    ensures Grew(Begin(context, plan, task))
  {
    var s := Begin(context, plan, task);
    BeginOk(context, plan, task);
    forall i | 0 <= i < |s.seen| ensures CompletedWork(s.seen[i].steps) == [] {
      WorkPrefix(s.seen[i].steps, 0);
    }
  }

  // ---------- the loop as written ----------

  class AgentLoop {
    const cfg: Config
    const env: Env
    var plan: TaskPlan
    var transcript: seq<Message>
    var batches: seq<seq<Event>>
    var seen: seq<Seen>
    var ended: bool

    function View(): RunState
      reads this, plan
    {
      RunState(plan.steps, plan.status, transcript, batches, seen, ended)
    }

    constructor (cfg: Config, env: Env, context: seq<Message>, given: Option<seq<PlanStep>>, task: string)
      ensures fresh(plan) && this.cfg == cfg && this.env == env && View() == Begin(context, given, task)
      ensures (given.Some? ==> Fresh(given.value)) ==> Valid()
    {
      this.cfg, this.env := cfg, env;
      var p := new TaskPlan(if given.Some? then given.value else []);
      plan, transcript, batches, ended := p, context, [], false;
      seen := [Seen(Phase(PlanningPhase), p.steps, p.status)];
      new;
      if given.None? {
        plan.steps := [NewStep(1, task)];
      }
      plan.status := Executing;
      Emit(PlanGenerated);
      Emit(Phase(ExecutingPhase));
      if given.Some? ==> Fresh(given.value) {
        BeginOk(context, given, task);
      }
    }

    /** What holds between turns of a loop that started from a fresh plan. */
    ghost predicate Valid()
      reads this, plan
    {
      RunInv(View())
    }

    method Emit(e: AgentEvent)
      modifies this`seen
      ensures View() == Yield(old(View()), e)
    {
      seen := seen + [Seen(e, plan.steps, plan.status)];
    }

    method Finish(e: AgentEvent, status: PlanStatus)
      modifies this`seen, this`ended, plan`status
      ensures View() == End(old(View()), e, status)
    {
      plan.status := status;
      ended := true;
      Emit(e);
    }

    method FinishStopped()
      modifies this`seen, this`ended, plan
      ensures View() == StopRun(old(View()))
    {
      var next := plan.Next();
      var current := FirstInProgress(plan.steps);
      if next.Some? && current.Some? && current.value < |plan.steps| {
        var stopped := WithStatus(plan.steps[current.value], Skipped, Some("Stopped by user."));
        plan.steps := plan.steps[current.value := stopped];
      }
      Finish(TaskStopped, Stopped);
    }

    method ReplacePlan(p: Pass)
      modifies this`seen, this`plan
      ensures View() == Replan(old(View()), p) && fresh(plan)
    {
      Emit(Phase(ReplanningPhase));
      var revised := new TaskPlan(Preserved(plan.steps, ParsePlan(p.revised, p.repair)));
      revised.status := Executing;
      plan := revised;
      Emit(PlanUpdated);
      Emit(Phase(ExecutingPhase));
    }

    method Fail(index: int, why: string)
      modifies this`seen, this`ended, plan
      ensures View() == FailRun(old(View()), index, why)
    {
      var known := plan.Update(index, StepStatus.Failed, Some(why));
      plan.status := PlanFailed;
      Emit(Phase(FailedPhase));
      Emit(PlanUpdated);
      Finish(TaskFailed, PlanFailed);
    }

    method HandleFailure(index: int, r: StepResult, p: Pass)
      modifies this`seen, this`ended, this`plan, plan
      ensures View() == AfterFailure(cfg, old(View()), index, r, p)
      ensures plan == old(plan) || fresh(plan)
    {
      if (r.kind.ToolBudget? || r.kind.ModelBudget?) && r.state.failure.Some?
         && ShouldReplan(r.state.failure.value.failureClass) {
        ReplacePlan(p);
      } else if r.kind.ModelBudget? {
        Fail(index, "Repeated model errors.");
      } else if r.kind.ToolBudget? && cfg.unified {
        Fail(index, "Repeated tool failures.");
      } else if cfg.unified {
        Fail(index, "Unified turn loop could not complete step.");
      } else if r.state.attempts >= cfg.maxErrors {
        ReplacePlan(p);
      } else {
        Fail(index, "Step did not complete successfully.");
      }
    }

    method Conclude(index: int, r: StepResult, p: Pass)
      modifies this`seen, this`ended, this`plan, plan
      ensures View() == AfterWork(cfg, old(View()), index, r, p)
      ensures plan == old(plan) || fresh(plan)
    {
      if p.stopAfter {
        FinishStopped();
      } else if r.summary.None? {
        HandleFailure(index, r, p);
      } else {
        var known := plan.Update(index, StepStatus.Completed, r.summary);
        Emit(PlanUpdated);
      }
    }

    method Work(k: nat, p: Pass)
      requires k < |plan.steps|
      modifies this, plan
      ensures View() == WorkStep(cfg, env, old(View()), k, p)
      ensures plan == old(plan) || fresh(plan)
    {
      var index := plan.steps[k].index;
      plan.steps := plan.steps[k := plan.steps[k].(status := InProgress)];
      Emit(StepStarted(index));
      var runner := new StepRunner(cfg, env);
      var r := runner.Run(p.rounds);
      Emit(StepEvents);
      transcript, batches := transcript + r.state.conversation, batches + r.state.batches;
      Conclude(index, r, p);
    }

    method Turn(p: Pass)
      requires !ended
      modifies this, plan
      ensures View() == OnePass(cfg, env, old(View()), p)
      ensures plan == old(plan) || fresh(plan)
      ensures old(Valid()) ==> Valid()
    {
      if Valid() {
        PassOk(cfg, env, View(), p);
      }
      if p.stop {
        FinishStopped();
        return;
      }
      if p.inactive {
        Finish(TaskTimedOut, TimedOut);
        return;
      }
      var next := plan.Next();
      if next.None? {
        Finish(TaskComplete, Done);
      } else if next.value < |plan.steps| {
        Work(next.value, p);
      }
    }

    /** The loop for as long as the world provides turns. */
    method RunTurns(passes: seq<Pass>)
      modifies this, plan
      ensures View() == Run(cfg, env, old(View()), passes)
      ensures plan == old(plan) || fresh(plan)
      ensures old(Valid()) ==> Valid()
    {
      if Valid() {
        RunOk(cfg, env, View(), passes);
      }
      for i := 0 to |passes|
        invariant View() == Run(cfg, env, old(View()), passes[..i])
        invariant plan == old(plan) || fresh(plan)
      {
        assert passes[..i + 1][..i] == passes[..i];
        if !ended {
          Turn(passes[i]);
        }
      }
      assert passes[..|passes|] == passes;
    }
  }

  /** A whole task, from the constructor's clamped settings on: if it ends, it has ended with
      one terminal event, the last, and a task reported complete has every step completed. */
  method RunTask(maxErrors: int, maxRounds: int, unified: bool, env: Env, context: seq<Message>,
                 given: Option<seq<PlanStep>>, task: string, passes: seq<Pass>)
    returns (s: RunState)
    requires given.Some? ==> Fresh(given.value)
    ensures s == Run(MakeConfig(maxErrors, maxRounds, unified), env, Begin(context, given, task), passes)
    ensures MakeConfig(maxErrors, maxRounds, unified).maxRounds >= 1
    ensures Concluded(s)
  {
    var cfg := MakeConfig(maxErrors, maxRounds, unified);
    var loop := new AgentLoop(cfg, env, context, given, task);
    loop.RunTurns(passes);
    s := loop.View();
    BeginOk(context, given, task);
    RunOk(cfg, env, Begin(context, given, task), passes);
    InvConcluded(s);
  }

  /** Every event shows a plan in order; a run that has ended has one terminal event, the last,
      and if it is done every step is completed. */
  ghost predicate Concluded(s: RunState) {
    && AllSeenOk(s.seen)
    && (s.ended ==>
          && s.seen != [] && Terminal(s.seen[|s.seen| - 1].event) && NoTerminal(s.seen[..|s.seen| - 1])
          && (s.status.Done? ==> forall i | 0 <= i < |s.steps| :: s.steps[i].status.Completed?))
  }

  lemma InvConcluded(s: RunState)
    requires RunInv(s)
    ensures Concluded(s)
  {
    if s.ended {
      assert SeenOk(s.seen[|s.seen| - 1]);
    }
  }
}
