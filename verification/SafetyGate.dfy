/** The rules of the safety gate, read off the call, the tool and the safety state alone, and kept
    by every tool batch, on both paths, in every step and in every run. */
module SafetyGate {
  import opened Text
  import opened Recovery
  import opened ToolBatch
  import opened ParallelBatch
  import opened StepLoop
  import opened Planner
  import opened AgentRun

  // ---------- the rules ----------

  /** The call names a registered tool, and its arguments can be read. */
  predicate Usable(env: Env, call: ToolCall) {
    && call.name.Some? && call.name.value != "" && call.name.value in env.registry
    && env.parse(call.arguments).error.None?
  }

  function ToolOf(env: Env, call: ToolCall): Spec
    requires Usable(env, call)
  {
    env.registry[call.name.value]
  }

  /** Neither the workspace boundary nor a read-only posture forbids it outright. */
  predicate Admissible(tool: Spec, r: Reply) {
    r.escapes.None? && (r.posture.ReadOnly? ==> tool.readOnly)
  }

  /** By mode: autonomous, only a high risk needs a yes, and not that of the shell with full access;
      otherwise every high risk does, and every tool with side effects that is marked for approval. */
  predicate YesNeeded(tool: Spec, r: Reply) {
    if r.autonomous then r.highRisk && (tool.name != "shell_execute" || !r.posture.DangerFullAccess?)
    else r.highRisk || (tool.requiresApproval && !tool.readOnly)
  }

  predicate MustAsk(env: Env, call: ToolCall, r: Reply) {
    Usable(env, call) && Admissible(ToolOf(env, call), r) && YesNeeded(ToolOf(env, call), r)
  }

  predicate MayRun(env: Env, call: ToolCall, r: Reply) {
    && Usable(env, call) && Admissible(ToolOf(env, call), r)
    && (YesNeeded(ToolOf(env, call), r) ==> r.answer)
  }

  /** Each decision of the gate, exactly. */
  lemma DecisionExact(tool: Spec, r: Reply)
    ensures Decide(tool, r).Blocked? <==> !Admissible(tool, r)
    ensures Decide(tool, r).NeedsApproval? <==> Admissible(tool, r) && YesNeeded(tool, r)
    ensures Decide(tool, r).Approved? <==> Admissible(tool, r) && !YesNeeded(tool, r)
  {
  }

  /** The guardian reviews, if there is one, the shell, the two editing tools and MCP tools. */
  predicate Reviewed(env: Env, tool: Spec) {
    env.guardian && (tool.name == "shell_execute" || tool.name == "file_write" || tool.name == "patch_apply"
                     || (|tool.name| >= 5 && tool.name[..5] == "mcp__"))
  }

  // ---------- what a batch does with its calls ----------

  /** How often a call is executed, and how often someone is asked about it. */
  function TimesRun(events: seq<Event>, i: nat): nat {
    if events == [] then 0
    else
      var last := events[|events| - 1];
      TimesRun(events[..|events| - 1], i) + if last.Executed? && last.call == i then 1 else 0
  }

  function TimesAsked(events: seq<Event>, i: nat): nat {
    if events == [] then 0
    else
      var last := events[|events| - 1];
      TimesAsked(events[..|events| - 1], i) + if last.Answered? && last.call == i then 1 else 0
  }

  /** An execution with leave: the tool its own call names, under the safety state of its own
      check, and, where a yes is needed, after a yes to its own call. */
  predicate LeaveAt(env: Env, calls: seq<ToolCall>, replies: seq<Reply>, events: seq<Event>, k: nat)
    requires |calls| == |replies| && k < |events| && events[k].Executed?
  {
    var i := events[k].call;
    && i < |calls| && MayRun(env, calls[i], replies[i])
    && events[k].tool == ToolOf(env, calls[i]) && events[k].posture == replies[i].later
    && (YesNeeded(events[k].tool, replies[i]) ==>
          exists a | 0 <= a < k :: events[a].Answered? && events[a].call == i && events[a].yes)
  }

  predicate AskedRightly(env: Env, calls: seq<ToolCall>, replies: seq<Reply>, e: Event)
    requires |calls| == |replies| && e.Answered?
  {
    && e.call < |calls| && MustAsk(env, calls[e.call], replies[e.call])
    && e.yes == replies[e.call].answer && (e.byGuardian <==> Reviewed(env, ToolOf(env, calls[e.call])))
  }

  /** A call runs exactly once or never, as the rules say, and is asked about exactly when they
      say so. */
  predicate GateKept(env: Env, calls: seq<ToolCall>, replies: seq<Reply>, events: seq<Event>) {
    && |calls| == |replies|
    && (forall k | 0 <= k < |events| :: events[k].Executed? ==> LeaveAt(env, calls, replies, events, k))
    && (forall k | 0 <= k < |events| :: events[k].Answered? ==> AskedRightly(env, calls, replies, events[k]))
    && (forall i | 0 <= i < |calls| ::
          TimesRun(events, i) == if MayRun(env, calls[i], replies[i]) then 1 else 0)
    && (forall i | 0 <= i < |calls| ::
          TimesAsked(events, i) == if MustAsk(env, calls[i], replies[i]) then 1 else 0)
  }

  // ---------- one call ----------

  predicate OwnLeave(env: Env, call: ToolCall, r: Reply, events: seq<Event>, k: nat)
    requires k < |events| && events[k].Executed?
  {
    && MayRun(env, call, r)
    && events[k].tool == ToolOf(env, call) && events[k].posture == r.later
    && (YesNeeded(events[k].tool, r) ==> exists a | 0 <= a < k :: events[a].Answered? && events[a].yes)
  }

  predicate OwnAsked(env: Env, call: ToolCall, r: Reply, e: Event)
    requires e.Answered?
  {
    MustAsk(env, call, r) && e.yes == r.answer && (e.byGuardian <==> Reviewed(env, ToolOf(env, call)))
  }

  lemma OneCallOwn(env: Env, i: nat, call: ToolCall, r: Reply)
    ensures var events := OneCall(env, i, call, r).events;
            forall k | 0 <= k < |events| ::
              && events[k].call == i
              && (events[k].Executed? ==> OwnLeave(env, call, r, events, k))
              && (events[k].Answered? ==> OwnAsked(env, call, r, events[k]))
  {
    if Usable(env, call) {
      DecisionExact(ToolOf(env, call), r);
      var events := OneCall(env, i, call, r).events;
      assert |events| > 1;
      if YesNeeded(ToolOf(env, call), r) && MayRun(env, call, r) {
        assert events[1].Answered? && events[1].yes;
      }
    }
  }

  lemma TimesConcat(a: seq<Event>, b: seq<Event>, i: nat)
    ensures TimesRun(a + b, i) == TimesRun(a, i) + TimesRun(b, i)
    ensures TimesAsked(a + b, i) == TimesAsked(a, i) + TimesAsked(b, i)
  {
    if b == [] {
      Unit(a);
    } else {
      FrontOfConcat(a, b);
      TimesConcat(a, b[..|b| - 1], i);
    }
  }

  lemma TimesOne(e: Event, i: nat)
    ensures TimesRun([e], i) == if e.Executed? && e.call == i then 1 else 0
    ensures TimesAsked([e], i) == if e.Answered? && e.call == i then 1 else 0
  {
    assert [e][..0] == [];
  }

  lemma TimesExecution(i: nat, tool: Spec, r: Reply)
    ensures TimesRun(Execution(i, tool, r), i) == 1 && TimesAsked(Execution(i, tool, r), i) == 0
  {
    var (a, b, c) := (Executed(i, tool, r.later), Returned(i), Reported(i, r.result.status));
    TimesOne(a, i);
    TimesOne(b, i);
    TimesOne(c, i);
    TimesConcat([a], [b], i);
    TimesConcat([a] + [b], [c], i);
    assert Execution(i, tool, r) == [a] + [b] + [c];
  }

  lemma TimesTwo(a: Event, b: Event, i: nat)
    ensures TimesRun([a, b], i) == TimesRun([a], i) + TimesRun([b], i)
    ensures TimesAsked([a, b], i) == TimesAsked([a], i) + TimesAsked([b], i)
  {
    TimesConcat([a], [b], i);
    assert [a] + [b] == [a, b];
  }

  lemma OneCallTimes(env: Env, i: nat, call: ToolCall, r: Reply)
    ensures var events := OneCall(env, i, call, r).events;
            && TimesRun(events, i) == (if MayRun(env, call, r) then 1 else 0)
            && TimesAsked(events, i) == (if MustAsk(env, call, r) then 1 else 0)
  {
    var o := OneCall(env, i, call, r);
    TimesOne(Reported(i, o.result.status), i);
    if Usable(env, call) {
      var tool := ToolOf(env, call);
      GatedTimes(env, i, call, tool, r);
      DecisionExact(tool, r);
    }
  }

  lemma GatedTimes(env: Env, i: nat, call: ToolCall, tool: Spec, r: Reply)
    ensures var (events, d) := (Gated(env, i, call, tool, r).events, Decide(tool, r));
            && TimesRun(events, i) == (if d.Approved? || (d.NeedsApproval? && r.answer) then 1 else 0)
            && TimesAsked(events, i) == (if d.NeedsApproval? then 1 else 0)
  {
    var d := Decide(tool, r);
    var (decided, answered) := (Decided(i, tool, d), Answered(i, GuardianReviews(env, tool), r.answer));
    var reported := Reported(i, Gated(env, i, call, tool, r).result.status);
    TimesOne(decided, i);
    TimesOne(answered, i);
    TimesOne(reported, i);
    TimesTwo(decided, answered, i);
    TimesTwo(decided, reported, i);
    TimesExecution(i, tool, r);
    TimesConcat([decided], Execution(i, tool, r), i);
    TimesConcat([decided, answered], Execution(i, tool, r), i);
    TimesConcat([decided, answered], [reported], i);
  }

  // ---------- both paths ----------

  lemma {:induction false} TimesProject(events: seq<Event>, i: nat)
    ensures TimesRun(events, i) == TimesRun(Project(events, i), i)
    ensures TimesAsked(events, i) == TimesAsked(Project(events, i), i)
  {
    if events != [] {
      var (front, last) := (events[..|events| - 1], events[|events| - 1]);
      TimesProject(front, i);
      TimesConcat(Project(front, i), [last], i);
      TimesOne(last, i);
      Unit(Project(front, i));
    }
  }

  lemma {:induction false} InProject(events: seq<Event>, k: nat)
    requires k < |events|
    ensures events[k] in Project(events, events[k].call)
  {
    if k < |events| - 1 {
      InProject(events[..|events| - 1], k);
    }
  }

  /** On both paths, for every order of the pool, a call's own events are those it has alone. */
  lemma HandledProject(env: Env, calls: seq<ToolCall>, replies: seq<Reply>, order: seq<PoolEvent>, i: nat)
    requires |calls| == |replies|
    ensures Project(Handled(env, calls, replies, order).events, i)
            == if i < |calls| then OneCall(env, i, calls[i], replies[i]).events else []
  {
    SequentialProject(env, calls, replies, i);
    if Eligible(env, calls, replies) {
      EligibleKnown(env, calls, replies);
      TracesProject(env, calls, replies, Schedule(replies, order), i);
    }
  }

  lemma LeaveConcat(env: Env, calls: seq<ToolCall>, replies: seq<Reply>, a: seq<Event>, b: seq<Event>, k: nat)
    requires |calls| == |replies| && calls != [] && k < |a| && a[k].Executed?
    requires LeaveAt(env, calls[..|calls| - 1], replies[..|replies| - 1], a, k)
    ensures LeaveAt(env, calls, replies, a + b, k)
  {
    var i := a[k].call;
    assert calls[..|calls| - 1][i] == calls[i] && replies[..|replies| - 1][i] == replies[i];
    if YesNeeded(a[k].tool, replies[i]) {
      var y :| 0 <= y < k && a[y].Answered? && a[y].call == i && a[y].yes;
      assert (a + b)[y] == a[y];
    }
  }

  lemma OwnLeaveConcat(env: Env, calls: seq<ToolCall>, replies: seq<Reply>, a: seq<Event>, b: seq<Event>, k: nat)
    requires |calls| == |replies| && calls != [] && k < |b| && b[k].Executed?
    requires forall j | 0 <= j < |b| :: b[j].call == |calls| - 1
    requires OwnLeave(env, calls[|calls| - 1], replies[|calls| - 1], b, k)
    ensures LeaveAt(env, calls, replies, a + b, |a| + k)
  {
    if YesNeeded(b[k].tool, replies[|calls| - 1]) {
      var y :| 0 <= y < k && b[y].Answered? && b[y].yes;
      assert (a + b)[|a| + y] == b[y];
    }
  }

  lemma {:induction false} SequentialLeave(env: Env, calls: seq<ToolCall>, replies: seq<Reply>, k: nat)
    requires |calls| == |replies|
    requires k < |Sequential(env, calls, replies).events| && Sequential(env, calls, replies).events[k].Executed?
    ensures LeaveAt(env, calls, replies, Sequential(env, calls, replies).events, k)
  {
    var n := |calls| - 1;
    var before := Sequential(env, calls[..n], replies[..n]).events;
    var own := OneCall(env, n, calls[n], replies[n]).events;
    SequentialEvents(env, calls, replies);
    if k < |before| {
      SequentialLeave(env, calls[..n], replies[..n], k);
      LeaveConcat(env, calls, replies, before, own, k);
    } else {
      OneCallOwn(env, n, calls[n], replies[n]);
      OwnLeaveConcat(env, calls, replies, before, own, k - |before|);
    }
  }

  /** A batch goes to the pool exactly when it has several calls, all of them of usable read-only
      tools that may run unasked. */
  lemma EligibleExact(env: Env, calls: seq<ToolCall>, replies: seq<Reply>)
    requires |calls| == |replies|
    ensures Eligible(env, calls, replies) <==>
            && |calls| >= 2
            && forall i | 0 <= i < |calls| ::
                 && MayRun(env, calls[i], replies[i]) && !MustAsk(env, calls[i], replies[i])
                 && ToolOf(env, calls[i]).readOnly
  {
    forall i | 0 <= i < |calls|
      ensures EligibleCall(env, calls[i], replies[i]) <==>
              && MayRun(env, calls[i], replies[i]) && !MustAsk(env, calls[i], replies[i])
              && ToolOf(env, calls[i]).readOnly
    {
      if Usable(env, calls[i]) {
        DecisionExact(ToolOf(env, calls[i]), replies[i]);
      }
    }
  }

  /** Such a batch is decided as a whole before anything runs; any other is worked off one call
      at a time. */
  lemma PathExact(env: Env, calls: seq<ToolCall>, replies: seq<Reply>, order: seq<PoolEvent>)
    requires |calls| == |replies|
    ensures var b := Handled(env, calls, replies, order);
            if Eligible(env, calls, replies) then
              |calls| <= |b.events| && forall i | 0 <= i < |calls| :: b.events[i].Decided? && b.events[i].call == i
            else b == Sequential(env, calls, replies)
  {
    if Eligible(env, calls, replies) {
      EligibleKnown(env, calls, replies);
      var d := Decisions(Tools(env, calls));
      assert forall i | 0 <= i < |calls| :: Handled(env, calls, replies, order).events[i] == d[i];
    }
  }

  lemma ParallelLeave(env: Env, calls: seq<ToolCall>, replies: seq<Reply>, order: seq<PoolEvent>, k: nat)
    requires |calls| == |replies| && Eligible(env, calls, replies)
    requires k < |Handled(env, calls, replies, order).events| && Handled(env, calls, replies, order).events[k].Executed?
    ensures LeaveAt(env, calls, replies, Handled(env, calls, replies, order).events, k)
  {
    var events := Handled(env, calls, replies, order).events;
    var i := events[k].call;
    EligibleExact(env, calls, replies);
    EligibleKnown(env, calls, replies);
    ParallelExecuted(env, calls, replies, Schedule(replies, order), k);
    HandledProject(env, calls, replies, order, i);
    InProject(events, k);
    OneCallOwn(env, i, calls[i], replies[i]);
  }

  /** On both paths, and for every order of the pool, a batch keeps the rules. */
  lemma BatchGate(env: Env, calls: seq<ToolCall>, replies: seq<Reply>, order: seq<PoolEvent>)
    requires |calls| == |replies|
    ensures GateKept(env, calls, replies, Handled(env, calls, replies, order).events)
  {
    var events := Handled(env, calls, replies, order).events;
    forall k | 0 <= k < |events| && events[k].Executed? ensures LeaveAt(env, calls, replies, events, k) {
      if Eligible(env, calls, replies) {
        ParallelLeave(env, calls, replies, order, k);
      } else {
        SequentialLeave(env, calls, replies, k);
      }
    }
    forall k | 0 <= k < |events| && events[k].Answered? ensures AskedRightly(env, calls, replies, events[k]) {
      AnsweredRightly(env, calls, replies, order, k);
    }
    forall i: nat | i < |calls|
      ensures TimesRun(events, i) == if MayRun(env, calls[i], replies[i]) then 1 else 0
      ensures TimesAsked(events, i) == if MustAsk(env, calls[i], replies[i]) then 1 else 0
    {
      TimesProject(events, i);
      HandledProject(env, calls, replies, order, i);
      OneCallTimes(env, i, calls[i], replies[i]);
    }
  }

  lemma AnsweredRightly(env: Env, calls: seq<ToolCall>, replies: seq<Reply>, order: seq<PoolEvent>, k: nat)
    requires |calls| == |replies|
    requires k < |Handled(env, calls, replies, order).events| && Handled(env, calls, replies, order).events[k].Answered?
    ensures AskedRightly(env, calls, replies, Handled(env, calls, replies, order).events[k])
  {
    var events := Handled(env, calls, replies, order).events;
    var i := events[k].call;
    HandledProject(env, calls, replies, order, i);
    InProject(events, k);
    if i < |calls| {
      OneCallOwn(env, i, calls[i], replies[i]);
    }
  }

  // ---------- what the model is told ----------

  /** Refused by the rules themselves, not for want of a yes. */
  predicate Forbidden(env: Env, call: ToolCall, r: Reply) {
    Usable(env, call) && !Admissible(ToolOf(env, call), r)
  }

  predicate Unsuccessful(env: Env, call: ToolCall, r: Reply) {
    !MayRun(env, call, r) || !r.result.status.Success?
  }

  /** The tool's own result if the call ran, a denial if it was refused a yes, else an error. */
  predicate ResultFits(env: Env, call: ToolCall, r: Reply, result: ToolResult) {
    if MayRun(env, call, r) then result == r.result
    else if MustAsk(env, call, r) then
      && result.status.Denied? && result.output == call.arguments
      && (if Reviewed(env, ToolOf(env, call)) then "Guardian" <= result.summary else "User" <= result.summary)
    else result.status.Error?
  }

  /** The name that was asked for or, of a usable call, that of the tool itself. */
  predicate NameFits(env: Env, call: ToolCall, name: string) {
    || (call.name == Some(name) && name != "")
    || (Usable(env, call) && name == ToolOf(env, call).name)
    || (call.name in {None, Some("")} && name == "unknown")
  }

  predicate FailsAs(env: Env, call: ToolCall, r: Reply, f: Option<FailureContext>) {
    && f.Some?
    && (MayRun(env, call, r) ==> f == ClassifyToolFailure(r.result))
    && (Forbidden(env, call, r) ==> f.value.failureClass.ToolBlocked?)
    && (MustAsk(env, call, r) && !r.answer ==> f.value.failureClass.ToolDenied?)
  }

  lemma OneCallResult(env: Env, i: nat, call: ToolCall, r: Reply)
    ensures var o := OneCall(env, i, call, r);
            && ResultFits(env, call, r, o.result) && NameFits(env, call, o.name)
            && (o.result.status.Success? <==> !Unsuccessful(env, call, r))
            && (o.blocked <==> Forbidden(env, call, r))
            && (Unsuccessful(env, call, r) ==> FailsAs(env, call, r, ClassifyToolFailure(o.result)))
  {
    if Usable(env, call) {
      var tool := ToolOf(env, call);
      DecisionExact(tool, r);
      if Decide(tool, r).Blocked? {
        var reason := Or(Decide(tool, r).reason, "The requested action violated a safety rule.");
        RefusalsClassified(tool.name, reason, "", "");
      }
    }
  }

  /** The one report of a call is the last of its own events and shows the status of a fitting result. */
  predicate ReportedLast(env: Env, call: ToolCall, r: Reply, own: seq<Event>) {
    && own != [] && (forall k | 0 <= k < |own| - 1 :: !own[k].Reported?)
    && own[|own| - 1].Reported?
    && var status := own[|own| - 1].status;
       if MayRun(env, call, r) then status == r.result.status
       else if MustAsk(env, call, r) then status.Denied?
       else status.Error?
  }

  /** On both paths each call is reported once, after all else that happens to it, as it ended. */
  lemma ReportsExact(env: Env, calls: seq<ToolCall>, replies: seq<Reply>, order: seq<PoolEvent>, i: nat)
    requires |calls| == |replies| && i < |calls|
    ensures ReportedLast(env, calls[i], replies[i], Project(Handled(env, calls, replies, order).events, i))
  {
    HandledProject(env, calls, replies, order, i);
    OneCallReported(env, i, calls[i], replies[i]);
  }

  lemma OneCallReported(env: Env, i: nat, call: ToolCall, r: Reply)
    ensures ReportedLast(env, call, r, OneCall(env, i, call, r).events)
  {
    if Usable(env, call) {
      DecisionExact(ToolOf(env, call), r);
    }
  }

  predicate AnyUnsuccessful(env: Env, calls: seq<ToolCall>, replies: seq<Reply>)
    requires |calls| == |replies|
  {
    exists i | 0 <= i < |calls| :: Unsuccessful(env, calls[i], replies[i])
  }

  predicate AnyFaulty(env: Env, calls: seq<ToolCall>, replies: seq<Reply>)
    requires |calls| == |replies|
  {
    exists i | 0 <= i < |calls| ::
      Unsuccessful(env, calls[i], replies[i]) && !Forbidden(env, calls[i], replies[i])
  }

  /** The failure is that of the first unsuccessful call. */
  predicate FirstFails(env: Env, calls: seq<ToolCall>, replies: seq<Reply>, f: Option<FailureContext>)
    requires |calls| == |replies|
  {
    forall i | 0 <= i < |calls| && Unsuccessful(env, calls[i], replies[i]) ::
      (forall j | 0 <= j < i :: !Unsuccessful(env, calls[j], replies[j])) ==> FailsAs(env, calls[i], replies[i], f)
  }

  lemma AnySnoc(env: Env, calls: seq<ToolCall>, replies: seq<Reply>)
    requires |calls| == |replies| && calls != []
    ensures var n := |calls| - 1;
            && (AnyUnsuccessful(env, calls, replies) <==>
                  AnyUnsuccessful(env, calls[..n], replies[..n]) || Unsuccessful(env, calls[n], replies[n]))
            && (AnyFaulty(env, calls, replies) <==>
                  || AnyFaulty(env, calls[..n], replies[..n])
                  || (Unsuccessful(env, calls[n], replies[n]) && !Forbidden(env, calls[n], replies[n])))
  {
    var n := |calls| - 1;
    assert forall i | 0 <= i < n :: calls[..n][i] == calls[i] && replies[..n][i] == replies[i];
  }

  lemma FirstSnoc(env: Env, calls: seq<ToolCall>, replies: seq<Reply>, f: Option<FailureContext>)
    requires |calls| == |replies| && calls != []
    requires var n := |calls| - 1;
             if AnyUnsuccessful(env, calls[..n], replies[..n]) then FirstFails(env, calls[..n], replies[..n], f)
             else Unsuccessful(env, calls[n], replies[n]) ==> FailsAs(env, calls[n], replies[n], f)
    ensures FirstFails(env, calls, replies, f)
  {
    var n := |calls| - 1;
    assert forall i | 0 <= i < n :: calls[..n][i] == calls[i] && replies[..n][i] == replies[i];
  }

  lemma SequentialNext(env: Env, calls: seq<ToolCall>, replies: seq<Reply>, before: Batch, o: Outcome)
    requires |calls| == |replies| && calls != []
    requires var n := |calls| - 1;
             before == Sequential(env, calls[..n], replies[..n]) && o == OneCall(env, n, calls[n], replies[n])
    ensures var b := Sequential(env, calls, replies);
            && b.hadError == (before.hadError || (!o.blocked && !o.result.status.Success?))
            && b.failure == FirstFailure(before.failure, o.result)
            && b.messages == before.messages + [Tool(calls[|calls| - 1].id, o.name, env.payload(o.name, o.result))]
  {
  }

  lemma {:induction false} SequentialFlagsExact(env: Env, calls: seq<ToolCall>, replies: seq<Reply>)
    requires |calls| == |replies|
    ensures var b := Sequential(env, calls, replies);
            && (b.hadError <==> AnyFaulty(env, calls, replies))
            && (b.failure.Some? <==> AnyUnsuccessful(env, calls, replies))
            && FirstFails(env, calls, replies, b.failure)
  {
    if calls != [] {
      var n := |calls| - 1;
      SequentialFlagsExact(env, calls[..n], replies[..n]);
      var before := Sequential(env, calls[..n], replies[..n]);
      SequentialNext(env, calls, replies, before, OneCall(env, n, calls[n], replies[n]));
      OneCallResult(env, n, calls[n], replies[n]);
      AnySnoc(env, calls, replies);
      FirstSnoc(env, calls, replies, Sequential(env, calls, replies).failure);
    }
  }

  /** On both paths, for every order of the pool: the error flag is set exactly when some call failed
      that was not barred by the rules, a failure is recorded exactly when some call was
      unsuccessful, and it is that of the first such call. */
  lemma FlagsExact(env: Env, calls: seq<ToolCall>, replies: seq<Reply>, order: seq<PoolEvent>)
    requires |calls| == |replies|
    ensures var b := Handled(env, calls, replies, order);
            && (b.hadError <==> AnyFaulty(env, calls, replies))
            && (b.failure.Some? <==> AnyUnsuccessful(env, calls, replies))
            && FirstFails(env, calls, replies, b.failure)
  {
    SequentialFlagsExact(env, calls, replies);
    if Eligible(env, calls, replies) {
      EveryOrderAgrees(env, calls, replies, Schedule(replies, order));
    }
  }

  /** An answer carries the call's id, its name and the payload of a fitting result. */
  ghost predicate Tells(env: Env, call: ToolCall, r: Reply, m: Message) {
    && m.Tool? && m.id == call.id && NameFits(env, call, m.name)
    && exists result :: ResultFits(env, call, r, result) && m.content == env.payload(m.name, result)
  }

  ghost predicate AllTell(env: Env, calls: seq<ToolCall>, replies: seq<Reply>, ms: seq<Message>) {
    |calls| == |replies| == |ms| && forall i | 0 <= i < |ms| :: Tells(env, calls[i], replies[i], ms[i])
  }

  lemma {:induction false} SequentialTells(env: Env, calls: seq<ToolCall>, replies: seq<Reply>)
    requires |calls| == |replies|
    ensures AllTell(env, calls, replies, Sequential(env, calls, replies).messages)
  {
    if calls != [] {
      var n := |calls| - 1;
      var (before, o) := (Sequential(env, calls[..n], replies[..n]), OneCall(env, n, calls[n], replies[n]));
      SequentialTells(env, calls[..n], replies[..n]);
      SequentialNext(env, calls, replies, before, o);
      OneCallResult(env, n, calls[n], replies[n]);
      TellsSnoc(env, calls, replies, before.messages, Tool(calls[n].id, o.name, env.payload(o.name, o.result)));
    }
  }

  lemma TellsSnoc(env: Env, calls: seq<ToolCall>, replies: seq<Reply>, ms: seq<Message>, last: Message)
    requires |calls| == |replies| && calls != []
    requires AllTell(env, calls[..|calls| - 1], replies[..|replies| - 1], ms)
    requires Tells(env, calls[|calls| - 1], replies[|replies| - 1], last)
    ensures AllTell(env, calls, replies, ms + [last])
  {
    var n := |calls| - 1;
    forall i | 0 <= i < n ensures Tells(env, calls[i], replies[i], (ms + [last])[i]) {
      assert Tells(env, calls[..n][i], replies[..n][i], ms[i]);
    }
  }

  lemma AnswersNext(env: Env, calls: seq<ToolCall>, results: seq<ToolResult>, before: Batch)
    requires |calls| == |results| && AllKnown(env, calls) && calls != []
    requires before == Answers(env, calls[..|calls| - 1], results[..|calls| - 1])
    ensures var (n, name) := (|calls| - 1, LookupTool(env, calls[|calls| - 1]).value.name);
            Answers(env, calls, results).messages
            == before.messages + [Tool(calls[n].id, name, env.payload(name, results[n]))]
  {
  }

  lemma {:induction false} AnswersTell(env: Env, calls: seq<ToolCall>, results: seq<ToolResult>, i: nat)
    requires |calls| == |results| && AllKnown(env, calls) && i < |calls|
    ensures |Answers(env, calls, results).messages| == |calls|
    ensures var name := LookupTool(env, calls[i]).value.name;
            Answers(env, calls, results).messages[i] == Tool(calls[i].id, name, env.payload(name, results[i]))
  {
    var n := |calls| - 1;
    ParallelAnswers(env, calls[..n], results[..n]);
    AnswersNext(env, calls, results, Answers(env, calls[..n], results[..n]));
    if i < n {
      AnswersTell(env, calls[..n], results[..n], i);
    }
  }

  /** On both paths every call is answered, in order, with its own result or its refusal. */
  lemma AnswersExact(env: Env, calls: seq<ToolCall>, replies: seq<Reply>, order: seq<PoolEvent>)
    requires |calls| == |replies|
    ensures AllTell(env, calls, replies, Handled(env, calls, replies, order).messages)
  {
    SequentialTells(env, calls, replies);
    if Eligible(env, calls, replies) {
      EligibleKnown(env, calls, replies);
      EligibleExact(env, calls, replies);
      var results := Collected(replies, PoolRun(replies, Schedule(replies, order)).value);
      CollectedExact(replies, Schedule(replies, order));
      ParallelAnswers(env, calls, results);
      forall i | 0 <= i < |calls|
        ensures Tells(env, calls[i], replies[i], Answers(env, calls, results).messages[i])
      {
        AnswersTell(env, calls, results, i);
        assert ResultFits(env, calls[i], replies[i], results[i]);
      }
    }
  }

  // ---------- steps and runs ----------

  /** What the world says to one batch. */
  datatype Request = Request(calls: seq<ToolCall>, replies: seq<Reply>)

  function RequestOf(r: Round): seq<Request> {
    if !r.stop && r.reply.Answer? && r.reply.calls != [] then
      [Request(r.reply.calls, Replies(r.reply.calls, r.reply.world))]
    else []
  }

  /** The batches that the rounds a step reaches ask for, in order. */
  function Requests(cfg: Config, env: Env, rounds: nat -> Round, k: nat): seq<Request> {
    if k == 0 then []
    else
      Requests(cfg, env, rounds, k - 1)
      + if Reached(cfg, env, rounds, k - 1) then RequestOf(rounds(k - 1)) else []
  }

  /** One handled batch for each request, and each keeps `law`. */
  predicate Kept(law: (Request, seq<Event>) -> bool, requests: seq<Request>, batches: seq<seq<Event>>) {
    |requests| == |batches| && forall i | 0 <= i < |batches| :: law(requests[i], batches[i])
  }

  /** A law that every batch keeps, whatever the order of the pool. */
  ghost predicate Lawful(env: Env, law: (Request, seq<Event>) -> bool) {
    forall calls, replies, order | |calls| == |replies| ::
      law(Request(calls, replies), Handled(env, calls, replies, order).events)
  }

  lemma KeptConcat(law: (Request, seq<Event>) -> bool, a: seq<Request>, x: seq<seq<Event>>,
                   b: seq<Request>, y: seq<seq<Event>>)
    requires Kept(law, a, x) && Kept(law, b, y)
    ensures Kept(law, a + b, x + y)
  {
  }

  lemma RoundKept(cfg: Config, env: Env, law: (Request, seq<Event>) -> bool, s: StepState, r: Round,
                  requests: seq<Request>)
    requires Lawful(env, law) && Kept(law, requests, s.batches)
    ensures Kept(law, requests + RequestOf(r), BatchesOf(RoundStep(cfg, env, s, r)))
  {
    RoundBatches(cfg, env, s, r);
    Unit(requests);
    if RequestOf(r) != [] {
      var (calls, world) := (r.reply.calls, r.reply.world);
      var batch := Handled(env, calls, Replies(calls, world), world.order).events;
      KeptConcat(law, requests, s.batches, RequestOf(r), [batch]);
    }
  }

  lemma NextKept(cfg: Config, env: Env, law: (Request, seq<Event>) -> bool, before: Next, r: Round, next: Next,
                 requests: seq<Request>, all: seq<Request>)
    requires next == if before.Go? then RoundStep(cfg, env, before.state, r) else before
    requires all == requests + if before.Go? then RequestOf(r) else []
    requires Lawful(env, law) && Kept(law, requests, BatchesOf(before))
    ensures Kept(law, all, BatchesOf(next))
  {
    Unit(requests);
    if before.Go? {
      RoundKept(cfg, env, law, before.state, r, requests);
    }
  }

  lemma RequestsNext(cfg: Config, env: Env, rounds: nat -> Round, k: nat, before: Next)
    requires k > 0 && Rounds(cfg, env, rounds, k - 1) == before
    ensures Requests(cfg, env, rounds, k)
            == Requests(cfg, env, rounds, k - 1) + if before.Go? then RequestOf(rounds(k - 1)) else []
  {
  }

  lemma NoneAsked(cfg: Config, env: Env, rounds: nat -> Round)
    ensures Requests(cfg, env, rounds, 0) == [] && BatchesOf(Rounds(cfg, env, rounds, 0)) == []
  {
  }

  lemma {:induction false} RoundsKept(cfg: Config, env: Env, law: (Request, seq<Event>) -> bool, rounds: nat -> Round,
                                      k: nat)
    requires Lawful(env, law)
    ensures Kept(law, Requests(cfg, env, rounds, k), BatchesOf(Rounds(cfg, env, rounds, k)))
  {
    if k == 0 {
      NoneAsked(cfg, env, rounds);
    } else {
      var (before, next) := (Rounds(cfg, env, rounds, k - 1), Rounds(cfg, env, rounds, k));
      RoundsKept(cfg, env, law, rounds, k - 1);
      RoundsNext(cfg, env, rounds, k, before);
      RequestsNext(cfg, env, rounds, k, before);
      NextKept(cfg, env, law, before, rounds(k - 1), next, Requests(cfg, env, rounds, k - 1),
               Requests(cfg, env, rounds, k));
    }
  }

  lemma StepKept(cfg: Config, env: Env, law: (Request, seq<Event>) -> bool, rounds: nat -> Round)
    requires Lawful(env, law)
    ensures Kept(law, Requests(cfg, env, rounds, cfg.maxRounds), RunStep(cfg, env, rounds).state.batches)
  {
    RoundsKept(cfg, env, law, rounds, cfg.maxRounds);
  }

  function RunRequests(cfg: Config, env: Env, s: RunState, passes: seq<Pass>): seq<Request> {
    if passes == [] then []
    else
      var (front, p) := (passes[..|passes| - 1], passes[|passes| - 1]);
      RunRequests(cfg, env, s, front)
      + if WorksStep(Run(cfg, env, s, front), p) then Requests(cfg, env, p.rounds, cfg.maxRounds) else []
  }

  /** Whatever every batch keeps, every run keeps for exactly the batches that it asks for. */
  lemma {:induction false} RunKept(cfg: Config, env: Env, law: (Request, seq<Event>) -> bool, s: RunState,
                                   passes: seq<Pass>, earlier: seq<Request>)
    requires Lawful(env, law) && Kept(law, earlier, s.batches)
    ensures Kept(law, earlier + RunRequests(cfg, env, s, passes), Run(cfg, env, s, passes).batches)
  {
    Unit(earlier);
    if passes != [] {
      var (front, p) := (passes[..|passes| - 1], passes[|passes| - 1]);
      var before := Run(cfg, env, s, front);
      RunKept(cfg, env, law, s, front, earlier);
      WorkBatches(cfg, env, before, p);
      Unit(before.batches);
      Unit(RunRequests(cfg, env, s, front));
      if WorksStep(before, p) {
        StepKept(cfg, env, law, p.rounds);
        KeptConcat(law, earlier + RunRequests(cfg, env, s, front), before.batches,
                   Requests(cfg, env, p.rounds, cfg.maxRounds), RunStep(cfg, env, p.rounds).state.batches);
        Assoc(earlier, RunRequests(cfg, env, s, front), Requests(cfg, env, p.rounds, cfg.maxRounds));
      }
    }
  }

  /** The rules of the gate, as such a law. */
  function Rules(env: Env): (Request, seq<Event>) -> bool {
    (q: Request, events: seq<Event>) => GateKept(env, q.calls, q.replies, events)
  }

  lemma RulesLawful(env: Env)
    ensures Lawful(env, Rules(env))
  {
    forall calls, replies, order | |calls| == |replies|
      ensures Rules(env)(Request(calls, replies), Handled(env, calls, replies, order).events)
    {
      BatchGate(env, calls, replies, order);
    }
  }

  /** A step handles exactly the batches that its reached rounds ask for, all by the rules. */
  lemma StepGate(cfg: Config, env: Env, rounds: nat -> Round)
    ensures Kept(Rules(env), Requests(cfg, env, rounds, cfg.maxRounds), RunStep(cfg, env, rounds).state.batches)
  {
    RulesLawful(env);
    StepKept(cfg, env, Rules(env), rounds);
  }

  /** So does every run: no call that needs a yes runs without one, none that escapes the boundary
      or is barred by the posture runs at all, and everything else runs. */
  lemma RunGate(cfg: Config, env: Env, s: RunState, passes: seq<Pass>, earlier: seq<Request>)
    requires Kept(Rules(env), earlier, s.batches)
    ensures Kept(Rules(env), earlier + RunRequests(cfg, env, s, passes), Run(cfg, env, s, passes).batches)
  {
    RulesLawful(env);
    RunKept(cfg, env, Rules(env), s, passes, earlier);
  }
}
