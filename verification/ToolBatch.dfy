/** Batches of tool calls: the safety gate, the sequential path with its approvals, and the
    parallel path for read-only batches on a bounded thread pool. */
module ToolBatch {
  import opened Text
  import opened Recovery

  datatype ToolCall = ToolCall(id: string, name: Option<string>, arguments: string)

  /** Conversation messages; `Tool` answers the call with the same id. */
  datatype Message =
    | System(content: string)
    | User(content: string)
    | Assistant(content: string, calls: seq<ToolCall>)
    | Tool(id: string, name: string, content: string)

  datatype Spec = Spec(name: string, readOnly: bool, requiresApproval: bool)

  datatype Posture = WorkspaceWrite | ReadOnly | DangerFullAccess

  datatype Decision = Approved | NeedsApproval | Blocked(reason: string)

  datatype Parsed = Parsed(arguments: string, error: Option<string>)

  /** What a batch takes from its surroundings: the registry, argument parsing, the text of
      a tool message, and whether approvals go to the guardian. */
  datatype Env = Env(
    registry: map<string, Spec>,
    parse: string -> Parsed,
    payload: (string, ToolResult) -> string,
    guardian: bool)

  /** The outside world's part in one call: the safety state when it is checked, the answer
      to an approval request, and the result of the execution. */
  datatype Reply = Reply(
    posture: Posture,
    escapes: Option<string>,
    highRisk: bool,
    autonomous: bool,
    answer: bool,
    later: Posture,          // the posture while the tool runs
    result: ToolResult)

  // ---------- the gate ----------

  const READ_ONLY_BLOCK := "Runtime sandbox mode 'read-only' blocks side-effecting tools."

  /** `requires_tool_approval`. */
  predicate RequiresApproval(tool: Spec, r: Reply) {
    if r.highRisk then !(tool.name == "shell_execute" && r.autonomous && r.posture.DangerFullAccess?)
    else !tool.readOnly && tool.requiresApproval && !r.autonomous
  }

  /** `check_and_approve`. */
  function Decide(tool: Spec, r: Reply): Decision {
    if r.posture.ReadOnly? && !tool.readOnly then Blocked(READ_ONLY_BLOCK)
    else if r.escapes.Some? then Blocked(r.escapes.value)
    else if RequiresApproval(tool, r) then NeedsApproval
    else Approved
  }

  predicate GuardianReviews(env: Env, tool: Spec) {
    env.guardian && (tool.name in {"shell_execute", "file_write", "patch_apply"} || "mcp__" <= tool.name)
  }

  // ---------- one call, sequentially ----------

  datatype Event =
    | Decided(call: nat, tool: Spec, decision: Decision)
    | Answered(call: nat, byGuardian: bool, yes: bool)
    | Executed(call: nat, tool: Spec, posture: Posture)
    | Returned(call: nat)
    | Reported(call: nat, status: ToolStatus)

  datatype Outcome = Outcome(events: seq<Event>, name: string, result: ToolResult, blocked: bool)

  function LookupTool(env: Env, call: ToolCall): Option<Spec> {
    if call.name.Some? && call.name.value != "" && call.name.value in env.registry then
      Some(env.registry[call.name.value])
    else None
  }

  function ShownName(call: ToolCall): string {
    if call.name.Some? && call.name.value != "" then call.name.value else "unknown"
  }

  function RefusedResult(env: Env, tool: Spec, call: ToolCall): ToolResult {
    if GuardianReviews(env, tool) then DeniedResult("Guardian denied tool '" + tool.name + "'", call.arguments)
    else DeniedResult("User denied tool '" + ShownName(call) + "'", call.arguments)
  }

  /** The posture is not looked at again when the tool runs. */
  function Execution(i: nat, tool: Spec, r: Reply): seq<Event> {
    [Executed(i, tool, r.later), Returned(i), Reported(i, r.result.status)]
  }

  /** What happens to a call that reached the gate. */
  function Gated(env: Env, i: nat, call: ToolCall, tool: Spec, r: Reply): Outcome {
    var decision := Decide(tool, r);
    match decision
    case Blocked(reason) =>
      var result := ErrorResult("Blocked tool '" + tool.name + "'",
                                Or(reason, "The requested action violated a safety rule."));
      Outcome([Decided(i, tool, decision), Reported(i, result.status)], tool.name, result, true)
    case Approved =>
      Outcome([Decided(i, tool, decision)] + Execution(i, tool, r), ShownName(call), r.result, false)
    case NeedsApproval =>
      var asked := [Decided(i, tool, decision), Answered(i, GuardianReviews(env, tool), r.answer)];
      if r.answer then
        Outcome(asked + Execution(i, tool, r), ShownName(call), r.result, false)
      else
        var result := RefusedResult(env, tool, call);
        Outcome(asked + [Reported(i, result.status)], ShownName(call), result, false)
  }

  function OneCall(env: Env, i: nat, call: ToolCall, r: Reply): Outcome {
    var tool, parsed := LookupTool(env, call), env.parse(call.arguments);
    if tool.None? then
      var why := Or(if parsed.error.Some? then parsed.error.value else "", "The requested tool is not registered.");
      var result := ErrorResult("Unknown tool '" + ShownName(call) + "'", why);
      Outcome([Reported(i, result.status)], ShownName(call), result, false)
    else if parsed.error.Some? then
      var result := ErrorResult("Invalid arguments for tool '" + ShownName(call) + "'", parsed.error.value);
      Outcome([Reported(i, result.status)], ShownName(call), result, false)
    else Gated(env, i, call, tool.value, r)
  }

  // ---------- the sequential path ----------

  datatype Batch = Batch(messages: seq<Message>, hadError: bool, failure: Option<FailureContext>, events: seq<Event>)

  const NO_CALLS := Batch([], false, None, [])

  function FirstFailure(failure: Option<FailureContext>, result: ToolResult): Option<FailureContext> {
    if failure.None? then ClassifyToolFailure(result) else failure
  }

  function Sequential(env: Env, calls: seq<ToolCall>, replies: seq<Reply>): Batch
    requires |calls| == |replies|
  {
    if calls == [] then NO_CALLS
    else
      var n := |calls| - 1;
      var before, o := Sequential(env, calls[..n], replies[..n]), OneCall(env, n, calls[n], replies[n]);
      Batch(before.messages + [Tool(calls[n].id, o.name, env.payload(o.name, o.result))],
            before.hadError || (!o.blocked && !o.result.status.Success?),
            FirstFailure(before.failure, o.result),
            before.events + o.events)
  }

  /** `_handle_tool_calls_sequential`. */
  method HandleSequential(env: Env, calls: seq<ToolCall>, replies: seq<Reply>) returns (b: Batch)
    requires |calls| == |replies|
    ensures b == Sequential(env, calls, replies)
  {
    var messages, hadError, events := [], false, [];
    var failure: Option<FailureContext> := None;
    for i := 0 to |calls|
      invariant Batch(messages, hadError, failure, events) == Sequential(env, calls[..i], replies[..i])
    {
      assert calls[..i + 1][..i] == calls[..i] && replies[..i + 1][..i] == replies[..i];
      var o := OneCall(env, i, calls[i], replies[i]);
      messages := messages + [Tool(calls[i].id, o.name, env.payload(o.name, o.result))];
      events := events + o.events;
      if !o.blocked {
        hadError := hadError || !o.result.status.Success?;
      }
      if !o.result.status.Success? && failure.None? {
        failure := ClassifyToolFailure(o.result);
      }
    }
    assert calls[..|calls|] == calls && replies[..|replies|] == replies;
    b := Batch(messages, hadError, failure, events);
  }

  /** One answer per call, with the same ids in the same order. */
  lemma {:induction false} SequentialAnswers(env: Env, calls: seq<ToolCall>, replies: seq<Reply>)
    requires |calls| == |replies|
    ensures var m := Sequential(env, calls, replies).messages;
            |m| == |calls| && forall i | 0 <= i < |m| :: m[i].Tool? && m[i].id == calls[i].id
  {
    if calls != [] {
      var n := |calls| - 1;
      SequentialAnswers(env, calls[..n], replies[..n]);
      SequentialMessages(env, calls, replies);
    }
  }

  lemma SequentialMessages(env: Env, calls: seq<ToolCall>, replies: seq<Reply>)
    requires |calls| == |replies| && calls != []
    ensures var (n, m) := (|calls| - 1, Sequential(env, calls, replies).messages);
            && m != [] && m[..|m| - 1] == Sequential(env, calls[..n], replies[..n]).messages
            && m[|m| - 1].Tool? && m[|m| - 1].id == calls[n].id
  {
  }

  predicate AnyFails(env: Env, calls: seq<ToolCall>, replies: seq<Reply>)
    requires |calls| == |replies|
  {
    calls != [] &&
    var n := |calls| - 1;
    AnyFails(env, calls[..n], replies[..n]) || !OneCall(env, n, calls[n], replies[n]).result.status.Success?
  }

  /** An error flag always comes with a failure class, so the loop's fallback class for an
      unclassified failure is never needed; and a failure is recorded exactly when the
      result of some call is no success. */
  lemma {:induction false} FailureRecorded(env: Env, calls: seq<ToolCall>, replies: seq<Reply>)
    requires |calls| == |replies|
    ensures var b := Sequential(env, calls, replies);
            (b.hadError ==> b.failure.Some?) && (b.failure.Some? <==> AnyFails(env, calls, replies))
  {
    if calls != [] {
      var n := |calls| - 1;
      FailureRecorded(env, calls[..n], replies[..n]);
      AbsorbFailure(Sequential(env, calls[..n], replies[..n]).failure, OneCall(env, n, calls[n], replies[n]).result);
    }
  }

  lemma AbsorbFailure(failure: Option<FailureContext>, result: ToolResult)
    ensures FirstFailure(failure, result).Some? <==> failure.Some? || !result.status.Success?
  {
  }

  // ---------- safety of executions ----------

  /** The execution at a position of a trace is justified by earlier events of its own call. */
  predicate JustifiedAt(events: seq<Event>, k: nat)
    requires k < |events| && events[k].Executed?
  {
    exists j | 0 <= j < k ::
      && events[j].Decided? && events[j].call == events[k].call && events[j].tool == events[k].tool
      && (events[j].decision.Approved? ||
          (events[j].decision.NeedsApproval? &&
           exists a | j < a < k :: events[a].Answered? && events[a].call == events[k].call && events[a].yes))
  }

  predicate Justified(events: seq<Event>) {
    forall k | 0 <= k < |events| :: events[k].Executed? ==> JustifiedAt(events, k)
  }

  lemma JustifiedConcat(a: seq<Event>, b: seq<Event>)
    requires Justified(a) && Justified(b)
    ensures Justified(a + b)
  {
    var all := a + b;
    forall k | 0 <= k < |all| && all[k].Executed? ensures JustifiedAt(all, k) {
      var part, offset := if k < |a| then a else b, if k < |a| then 0 else |a|;
      assert part[k - offset] == all[k] && JustifiedAt(part, k - offset);
      var j :| && 0 <= j < k - offset
               && part[j].Decided? && part[j].call == part[k - offset].call && part[j].tool == part[k - offset].tool
               && (part[j].decision.Approved? ||
                   (part[j].decision.NeedsApproval? &&
                    exists a | j < a < k - offset ::
                      part[a].Answered? && part[a].call == part[k - offset].call && part[a].yes));
      assert all[j + offset] == part[j];
      if part[j].decision.NeedsApproval? {
        var a' :| j < a' < k - offset && part[a'].Answered? && part[a'].call == part[k - offset].call && part[a'].yes;
        assert all[a' + offset] == part[a'];
      }
    }
  }

  lemma OneCallJustified(env: Env, i: nat, call: ToolCall, r: Reply)
    ensures Justified(OneCall(env, i, call, r).events)
  {
    var events := OneCall(env, i, call, r).events;
    forall k | 0 <= k < |events| && events[k].Executed? ensures JustifiedAt(events, k) {
      assert events[0].Decided? && events[0].tool == events[k].tool;
      assert events[0].decision.Approved? || events[1].Answered?;
    }
  }

  /** Every execution in a batch follows an approved decision, or one that asked and was
      answered yes, for that same call. */
  lemma {:induction false} SequentialJustified(env: Env, calls: seq<ToolCall>, replies: seq<Reply>)
    requires |calls| == |replies|
    ensures Justified(Sequential(env, calls, replies).events)
  {
    if calls != [] {
      var n := |calls| - 1;
      SequentialJustified(env, calls[..n], replies[..n]);
      OneCallJustified(env, n, calls[n], replies[n]);
      JustifiedConcat(Sequential(env, calls[..n], replies[..n]).events, OneCall(env, n, calls[n], replies[n]).events);
    }
  }

  predicate Executes(events: seq<Event>, i: nat) {
    exists k | 0 <= k < |events| :: events[k].Executed? && events[k].call == i
  }

  /** A blocked or refused call is not executed and yields no success. */
  lemma RefusedNotExecuted(env: Env, i: nat, call: ToolCall, tool: Spec, r: Reply)
    requires LookupTool(env, call) == Some(tool) && env.parse(call.arguments).error.None?
    ensures var (o, decision) := (OneCall(env, i, call, r), Decide(tool, r));
            && (Executes(o.events, i) <==> decision.Approved? || (decision.NeedsApproval? && r.answer))
            && (!Executes(o.events, i) ==> !o.result.status.Success?)
  {
    var events := OneCall(env, i, call, r).events;
    if Decide(tool, r).Approved? {
      assert events[1].Executed?;
    } else if Decide(tool, r).NeedsApproval? && r.answer {
      assert events[2].Executed?;
    }
  }

  /** While the posture is read-only, only read-only tools are executed. */
  lemma {:induction false} ReadOnlyPosture(env: Env, calls: seq<ToolCall>, replies: seq<Reply>, k: nat)
    requires |calls| == |replies| && forall i | 0 <= i < |replies| :: replies[i].posture.ReadOnly?
    requires k < |Sequential(env, calls, replies).events| && Sequential(env, calls, replies).events[k].Executed?
    ensures Sequential(env, calls, replies).events[k].tool.readOnly
  {
    var n := |calls| - 1;
    var before := Sequential(env, calls[..n], replies[..n]).events;
    if k < |before| {
      ReadOnlyPosture(env, calls[..n], replies[..n], k);
    } else {
      var events := OneCall(env, n, calls[n], replies[n]).events;
      assert events[k - |before|].Executed?;
      assert replies[n].posture.ReadOnly?;
    }
  }

  // ---------- a posture that changes after the check ----------

  predicate SideEffectDuringReadOnly(e: Event) {
    e.Executed? && e.posture.ReadOnly? && !e.tool.readOnly
  }

  /** The posture turned read-only after a call with side effects had passed its check. */
  predicate Overtaken(env: Env, call: ToolCall, r: Reply) {
    && LookupTool(env, call).Some? && env.parse(call.arguments).error.None?
    && !LookupTool(env, call).value.readOnly
    && r.later.ReadOnly?
    && var decision := Decide(LookupTool(env, call).value, r);
       decision.Approved? || (decision.NeedsApproval? && r.answer)
  }

  /** Some tool with side effects ran while the posture was read-only. */
  predicate BreaksReadOnly(events: seq<Event>) {
    exists k :: 0 <= k < |events| && SideEffectDuringReadOnly(events[k])
  }

  predicate AnyOvertaken(env: Env, calls: seq<ToolCall>, replies: seq<Reply>)
    requires |calls| == |replies|
  {
    exists i :: 0 <= i < |calls| && Overtaken(env, calls[i], replies[i])
  }

  lemma OvertakenExact(env: Env, i: nat, call: ToolCall, r: Reply)
    ensures Overtaken(env, call, r) <==> BreaksReadOnly(OneCall(env, i, call, r).events)
    ensures Overtaken(env, call, r) ==> !r.posture.ReadOnly?
  {
    var events := OneCall(env, i, call, r).events;
    if Overtaken(env, call, r) {
      var k := if Decide(LookupTool(env, call).value, r).Approved? then 1 else 2;
      assert events[k] == Executed(i, LookupTool(env, call).value, r.later);
    }
  }

  lemma AnyOvertakenSnoc(env: Env, calls: seq<ToolCall>, replies: seq<Reply>)
    requires |calls| == |replies| && calls != []
    ensures var n := |calls| - 1;
            AnyOvertaken(env, calls, replies) <==>
            AnyOvertaken(env, calls[..n], replies[..n]) || Overtaken(env, calls[n], replies[n])
  {
    var n := |calls| - 1;
    assert forall i | 0 <= i < n :: calls[..n][i] == calls[i] && replies[..n][i] == replies[i];
    if AnyOvertaken(env, calls[..n], replies[..n]) {
      var i :| 0 <= i < n && Overtaken(env, calls[..n][i], replies[..n][i]);
      assert Overtaken(env, calls[i], replies[i]);
    }
  }

  lemma SequentialEvents(env: Env, calls: seq<ToolCall>, replies: seq<Reply>)
    requires |calls| == |replies| && calls != []
    ensures var n := |calls| - 1;
            Sequential(env, calls, replies).events
            == Sequential(env, calls[..n], replies[..n]).events + OneCall(env, n, calls[n], replies[n]).events
  {
  }

  /** Side effects happen under a read-only posture if and only if the posture changed between
      some call's check and its execution; reading it once per call is what allows that. */
  lemma {:induction false} SwitchExact(env: Env, calls: seq<ToolCall>, replies: seq<Reply>)
    requires |calls| == |replies|
    ensures BreaksReadOnly(Sequential(env, calls, replies).events) <==> AnyOvertaken(env, calls, replies)
  {
    if calls != [] {
      var n := |calls| - 1;
      SwitchExact(env, calls[..n], replies[..n]);
      OvertakenExact(env, n, calls[n], replies[n]);
      SequentialEvents(env, calls, replies);
      SwitchSnoc(Sequential(env, calls[..n], replies[..n]).events, OneCall(env, n, calls[n], replies[n]).events);
      AnyOvertakenSnoc(env, calls, replies);
    }
  }

  lemma SwitchSnoc(a: seq<Event>, b: seq<Event>)
    ensures BreaksReadOnly(a + b) <==> BreaksReadOnly(a) || BreaksReadOnly(b)
  {
    if k :| 0 <= k < |a| && SideEffectDuringReadOnly(a[k]) {
      assert (a + b)[k] == a[k];
    }
    if k :| 0 <= k < |b| && SideEffectDuringReadOnly(b[k]) {
      assert (a + b)[|a| + k] == b[k];
    }
  }

  /** What a caller can see to: the posture does not change between a call's check and its run. */
  predicate Steady(replies: seq<Reply>) {
    forall i | 0 <= i < |replies| :: replies[i].later == replies[i].posture
  }

  lemma SteadyNotOvertaken(env: Env, calls: seq<ToolCall>, replies: seq<Reply>)
    requires |calls| == |replies| && Steady(replies)
    ensures !AnyOvertaken(env, calls, replies)
  {
    forall i | 0 <= i < |calls| ensures !Overtaken(env, calls[i], replies[i]) {
      OvertakenExact(env, i, calls[i], replies[i]);
    }
  }

  /** A call that is overtaken: the user says yes to a write, and the posture has become
      read-only by then. */
  lemma OvertakenInstance(payload: (string, ToolResult) -> string, result: ToolResult)
    ensures var specs := map["file_write" := Spec("file_write", false, true)];
            var env := Env(specs, text => Parsed(text, None), payload, false);
            var call := ToolCall("1", Some("file_write"), "{}");
            var reply := Reply(WorkspaceWrite, None, false, false, true, ReadOnly, result);
            Overtaken(env, call, reply) && BreaksReadOnly(Sequential(env, [call], [reply]).events)
  {
    var env := Env(map["file_write" := Spec("file_write", false, true)], text => Parsed(text, None), payload, false);
    var call := ToolCall("1", Some("file_write"), "{}");
    var reply := Reply(WorkspaceWrite, None, false, false, true, ReadOnly, result);
    assert Overtaken(env, [call][0], [reply][0]);
    SwitchExact(env, [call], [reply]);
  }
}
