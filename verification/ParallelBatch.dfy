/** Read-only batches on the thread pool, and their agreement with the sequential path. */
module ParallelBatch {
  import opened Text
  import opened Recovery
  import opened ToolBatch

  const MAX_WORKERS := 16

  /** `_parallel_read_only_batch_eligible`. */
  predicate Eligible(env: Env, calls: seq<ToolCall>, replies: seq<Reply>)
    requires |calls| == |replies|
  {
    |calls| >= 2 && forall i | 0 <= i < |calls| :: EligibleCall(env, calls[i], replies[i])
  }

  predicate EligibleCall(env: Env, call: ToolCall, r: Reply) {
    && env.parse(call.arguments).error.None?
    && LookupTool(env, call).Some?
    && LookupTool(env, call).value.readOnly
    && Decide(LookupTool(env, call).value, r).Approved?
  }

  // ---------- the pool ----------

  /** Calls are submitted in order. A free worker takes the next one, and begins and ends it at
      any time. */
  datatype Pool = Pool(next: nat, taken: set<nat>, running: set<nat>, results: map<nat, ToolResult>)

  datatype PoolEvent = Take | Begin(i: nat) | End(i: nat)

  const IDLE := Pool(0, {}, {}, map[])

  function Workers(n: nat): nat {
    if n < MAX_WORKERS then n else MAX_WORKERS
  }

  predicate PoolCan(replies: seq<Reply>, p: Pool, e: PoolEvent) {
    match e
    case Take => p.next < |replies| && |p.taken| + |p.running| < Workers(|replies|)
    case Begin(i) => i in p.taken
    case End(i) => i in p.running && i < |replies|
  }

  function PoolNext(replies: seq<Reply>, p: Pool, e: PoolEvent): Pool
    requires PoolCan(replies, p, e)
  {
    match e
    case Take => p.(next := p.next + 1, taken := p.taken + {p.next})
    case Begin(i) => p.(taken := p.taken - {i}, running := p.running + {i})
    case End(i) => p.(running := p.running - {i}, results := p.results[i := replies[i].result])
  }

  function PoolRun(replies: seq<Reply>, order: seq<PoolEvent>): Option<Pool> {
    if order == [] then Some(IDLE)
    else
      var before, e := PoolRun(replies, order[..|order| - 1]), order[|order| - 1];
      if before.Some? && PoolCan(replies, before.value, e) then Some(PoolNext(replies, before.value, e)) else None
  }

  predicate PoolInv(replies: seq<Reply>, p: Pool) {
    && p.next <= |replies|
    && |p.taken| + |p.running| <= Workers(|replies|)
    && (forall i | i in p.taken :: i < p.next && i !in p.running && i !in p.results)
    && (forall i | i in p.running :: i < p.next && i !in p.results)
    && (forall i | i in p.results :: i < p.next && p.results[i] == replies[i].result)
    && (forall i | 0 <= i < p.next :: i in p.taken || i in p.running || i in p.results)
  }

  lemma AddOne(s: set<nat>, i: nat)
    requires i !in s
    ensures |s + {i}| == |s| + 1
  {
  }

  lemma RemoveOne(s: set<nat>, i: nat)
    requires i in s
    ensures |s - {i}| == |s| - 1
  {
    assert s == s - {i} + {i};
  }

  lemma TakeKeeps(replies: seq<Reply>, p: Pool)
    requires PoolInv(replies, p) && PoolCan(replies, p, Take)
    ensures PoolInv(replies, PoolNext(replies, p, Take))
  {
    assert p.next !in p.taken;
    AddOne(p.taken, p.next);
  }

  lemma BeginKeeps(replies: seq<Reply>, p: Pool, i: nat)
    requires PoolInv(replies, p) && PoolCan(replies, p, Begin(i))
    ensures PoolInv(replies, PoolNext(replies, p, Begin(i)))
  {
    AddOne(p.running, i);
    RemoveOne(p.taken, i);
  }

  lemma EndKeeps(replies: seq<Reply>, p: Pool, i: nat)
    requires PoolInv(replies, p) && PoolCan(replies, p, End(i))
    ensures PoolInv(replies, PoolNext(replies, p, End(i)))
  {
    RemoveOne(p.running, i);
  }

  lemma PoolStep(replies: seq<Reply>, p: Pool, e: PoolEvent)
    requires PoolInv(replies, p) && PoolCan(replies, p, e)
    ensures PoolInv(replies, PoolNext(replies, p, e))
  {
    match e
    case Take => TakeKeeps(replies, p);
    case Begin(i) => BeginKeeps(replies, p, i);
    case End(i) => EndKeeps(replies, p, i);
  }

  lemma {:induction false} PoolRunInv(replies: seq<Reply>, order: seq<PoolEvent>)
    requires PoolRun(replies, order).Some?
    ensures PoolInv(replies, PoolRun(replies, order).value)
  {
    if order != [] {
      PoolRunInv(replies, order[..|order| - 1]);
      PoolStep(replies, PoolRun(replies, order[..|order| - 1]).value, order[|order| - 1]);
    }
  }

  /** `f.result()` has returned for every future. */
  predicate Finished(n: nat, p: Pool) {
    forall i | 0 <= i < n :: i in p.results
  }

  /** A pool that is not finished can always take a step. */
  lemma PoolNeverStuck(replies: seq<Reply>, order: seq<PoolEvent>, p: Pool)
    requires PoolRun(replies, order) == Some(p)
    ensures Finished(|replies|, p) <==> forall e :: !PoolCan(replies, p, e)
  {
    PoolRunInv(replies, order);
    if forall e :: !PoolCan(replies, p, e) {
      forall i: nat ensures i !in p.taken && i !in p.running {
        assert !PoolCan(replies, p, Begin(i)) && !PoolCan(replies, p, End(i));
      }
      assert p.taken == {} && p.running == {};
      assert !PoolCan(replies, p, Take);
    }
    FinishedStops(replies, p);
  }

  lemma FinishedStops(replies: seq<Reply>, p: Pool)
    requires PoolInv(replies, p)
    ensures Finished(|replies|, p) ==> forall e :: !PoolCan(replies, p, e)
  {
    assert p.next < |replies| ==> p.next !in p.results;
  }

  function Below(n: nat): (s: set<nat>)
    ensures |s| == n && forall i: nat :: i in s <==> i < n
  {
    if n == 0 then {} else Below(n - 1) + {n - 1}
  }

  lemma {:induction false} SubsetSize(a: set<nat>, b: set<nat>)
    requires a <= b
    ensures |a| <= |b|
  {
    if a != {} {
      var x :| x in a;
      RemoveOne(a, x);
      RemoveOne(b, x);
      SubsetSize(a - {x}, b - {x});
    }
  }

  /** In every order at most sixteen calls are in work, and as long as fewer are the next call can
      be taken up. */
  lemma PoolBounded(replies: seq<Reply>, order: seq<PoolEvent>, p: Pool)
    requires PoolRun(replies, order) == Some(p)
    ensures |p.taken| + |p.running| <= 16
    ensures PoolCan(replies, p, Take) <==> p.next < |replies| && |p.taken| + |p.running| < 16
  {
    PoolRunInv(replies, order);
    assert p.taken !! p.running;
    SubsetSize(p.taken + p.running, Below(p.next));
    assert |p.taken + p.running| == |p.taken| + |p.running|;
  }

  predicate ValidOrder(replies: seq<Reply>, order: seq<PoolEvent>) {
    PoolRun(replies, order).Some? && Finished(|replies|, PoolRun(replies, order).value)
  }

  /** The results in submission order. */
  function Collected(replies: seq<Reply>, p: Pool): seq<ToolResult>
    requires Finished(|replies|, p)
  {
    seq(|replies|, i requires 0 <= i < |replies| => p.results[i])
  }

  lemma CollectedExact(replies: seq<Reply>, order: seq<PoolEvent>)
    requires ValidOrder(replies, order)
    ensures var results := Collected(replies, PoolRun(replies, order).value);
            |results| == |replies| && forall i | 0 <= i < |replies| :: results[i] == replies[i].result
  {
    PoolRunInv(replies, order);
  }

  /** One call after the other: an order that always exists. */
  function InOrder(n: nat): seq<PoolEvent> {
    if n == 0 then [] else InOrder(n - 1) + [Take, Begin(n - 1), End(n - 1)]
  }

  lemma RunSnoc(replies: seq<Reply>, order: seq<PoolEvent>, p: Pool, e: PoolEvent)
    requires PoolRun(replies, order) == Some(p) && PoolCan(replies, p, e)
    ensures PoolRun(replies, order + [e]) == Some(PoolNext(replies, p, e))
  {
    assert (order + [e])[..|order|] == order;
  }

  /** A pool with nothing under way works off the next call. */
  lemma OneMore(replies: seq<Reply>, order: seq<PoolEvent>, p: Pool)
    requires PoolRun(replies, order) == Some(p) && p.taken == {} && p.running == {} && p.next < |replies|
    ensures var run := PoolRun(replies, order + [Take, Begin(p.next), End(p.next)]);
            && run.Some? && run.value.next == p.next + 1 && run.value.taken == {} && run.value.running == {}
            && run.value.results == p.results[p.next := replies[p.next].result]
  {
    var i := p.next;
    RunSnoc(replies, order, p, Take);
    var q := PoolNext(replies, p, Take);
    assert i in q.taken && q.taken - {i} == {} && q.running == {};
    RunSnoc(replies, order + [Take], q, Begin(i));
    var r := PoolNext(replies, q, Begin(i));
    assert i in r.running && r.running - {i} == {} && r.taken == {};
    RunSnoc(replies, order + [Take] + [Begin(i)], r, End(i));
    ThreeSnocs(order, Take, Begin(i), End(i));
  }

  lemma ThreeSnocs(order: seq<PoolEvent>, a: PoolEvent, b: PoolEvent, c: PoolEvent)
    ensures order + [a] + [b] + [c] == order + [a, b, c]
  {
  }

  lemma {:induction false} InOrderRuns(replies: seq<Reply>, k: nat)
    requires k <= |replies|
    ensures var run := PoolRun(replies, InOrder(k));
            && run.Some? && run.value.next == k && run.value.taken == {} && run.value.running == {}
            && Finished(k, run.value)
  {
    if k > 0 {
      var before := InOrder(k - 1);
      InOrderRuns(replies, k - 1);
      var p := PoolRun(replies, before).value;
      OneMore(replies, before, p);
      var order := before + [Take, Begin(p.next), End(p.next)];
      assert InOrder(k) == order;
      var q := PoolRun(replies, order).value;
      assert forall i | 0 <= i < k :: i in q.results;
    }
  }

  /** The order in which the pool works a batch off; one that no pool can produce stands for the
      simplest that a pool can. */
  function Schedule(replies: seq<Reply>, order: seq<PoolEvent>): (r: seq<PoolEvent>)
    ensures ValidOrder(replies, r)
    ensures ValidOrder(replies, order) ==> r == order
  {
    InOrderRuns(replies, |replies|);
    if ValidOrder(replies, order) then order else InOrder(|replies|)
  }

  // ---------- the parallel path ----------

  predicate AllKnown(env: Env, calls: seq<ToolCall>) {
    forall i | 0 <= i < |calls| :: LookupTool(env, calls[i]).Some?
  }

  function Tools(env: Env, calls: seq<ToolCall>): seq<Spec>
    requires AllKnown(env, calls)
  {
    seq(|calls|, i requires 0 <= i < |calls| => LookupTool(env, calls[i]).value)
  }

  /** First every call is checked and announced, in call order. */
  function Decisions(tools: seq<Spec>): (r: seq<Event>)
    ensures |r| == |tools| && forall i | 0 <= i < |r| :: r[i] == Decided(i, tools[i], Approved)
  {
    if tools == [] then []
    else Decisions(tools[..|tools| - 1]) + [Decided(|tools| - 1, tools[|tools| - 1], Approved)]
  }

  function Ran(env: Env, calls: seq<ToolCall>, replies: seq<Reply>, e: PoolEvent): seq<Event>
    requires |calls| == |replies| && AllKnown(env, calls)
  {
    match e
    case Take => []
    case Begin(i) => if i < |calls| then [Executed(i, LookupTool(env, calls[i]).value, replies[i].later)] else []
    case End(i) => [Returned(i)]
  }

  /** Then the pool runs them, in its own order. */
  function Executions(env: Env, calls: seq<ToolCall>, replies: seq<Reply>, order: seq<PoolEvent>): seq<Event>
    requires |calls| == |replies| && AllKnown(env, calls)
  {
    if order == [] then []
    else
      Executions(env, calls, replies, order[..|order| - 1]) + Ran(env, calls, replies, order[|order| - 1])
  }

  function Reports(results: seq<ToolResult>): (r: seq<Event>)
    ensures |r| == |results| && forall i | 0 <= i < |r| :: r[i] == Reported(i, results[i].status)
  {
    if results == [] then []
    else Reports(results[..|results| - 1]) + [Reported(|results| - 1, results[|results| - 1].status)]
  }

  /** At last the answers and reports, in call order again. */
  function Answers(env: Env, calls: seq<ToolCall>, results: seq<ToolResult>): Batch
    requires |calls| == |results| && AllKnown(env, calls)
  {
    if calls == [] then NO_CALLS
    else
      var n := |calls| - 1;
      var before := Answers(env, calls[..n], results[..n]);
      var tool := LookupTool(env, calls[n]).value;
      Batch(before.messages + [Tool(calls[n].id, tool.name, env.payload(tool.name, results[n]))],
            before.hadError || !results[n].status.Success?,
            FirstFailure(before.failure, results[n]),
            Reports(results))
  }

  function Parallel(env: Env, calls: seq<ToolCall>, replies: seq<Reply>, order: seq<PoolEvent>): Batch
    requires |calls| == |replies| && AllKnown(env, calls) && ValidOrder(replies, order)
  {
    var b := Answers(env, calls, Collected(replies, PoolRun(replies, order).value));
    b.(events := Decisions(Tools(env, calls)) + Executions(env, calls, replies, order) + b.events)
  }

  /** The pool at work, one event after the other. */
  method RunPool(env: Env, calls: seq<ToolCall>, replies: seq<Reply>, order: seq<PoolEvent>)
    returns (pool: Pool, events: seq<Event>)
    requires |calls| == |replies| && AllKnown(env, calls) && ValidOrder(replies, order)
    ensures Some(pool) == PoolRun(replies, order) && events == Executions(env, calls, replies, order)
  {
    pool, events := IDLE, [];
    for k := 0 to |order|
      invariant Some(pool) == PoolRun(replies, order[..k])
      invariant events == Executions(env, calls, replies, order[..k])
    {
      assert order[..k + 1][..k] == order[..k];
      RunPrefix(replies, order, k + 1);
      pool := PoolNext(replies, pool, order[k]);
      events := events + Ran(env, calls, replies, order[k]);
    }
    assert order[..|order|] == order;
  }

  lemma {:induction false} RunPrefix(replies: seq<Reply>, order: seq<PoolEvent>, k: nat)
    requires k <= |order| && PoolRun(replies, order).Some?
    ensures PoolRun(replies, order[..k]).Some?
    decreases |order|
  {
    if k == |order| {
      assert order[..k] == order;
    } else {
      RunPrefix(replies, order[..|order| - 1], k);
      assert order[..|order| - 1][..k] == order[..k];
    }
  }

  /** `_handle_tool_calls_parallel_read_only`: prepare and announce, submit all, then answer in
      call order from whatever the pool has produced. */
  method HandleParallel(env: Env, calls: seq<ToolCall>, replies: seq<Reply>, order: seq<PoolEvent>) returns (b: Batch)
    requires |calls| == |replies| && Eligible(env, calls, replies) && ValidOrder(replies, order)
    ensures AllKnown(env, calls) && b == Parallel(env, calls, replies, order)
  {
    var prepared: seq<(string, Spec)>, announced: seq<Event> := [], [];
    for i := 0 to |calls|
      invariant |prepared| == |announced| == i
      invariant forall j | 0 <= j < i :: prepared[j] == (calls[j].id, LookupTool(env, calls[j]).value)
      invariant forall j | 0 <= j < i :: announced[j] == Decided(j, LookupTool(env, calls[j]).value, Approved)
    {
      assert EligibleCall(env, calls[i], replies[i]);
      var tool := LookupTool(env, calls[i]).value;
      prepared, announced := prepared + [(calls[i].id, tool)], announced + [Decided(i, tool, Approved)];
    }
    assert announced == Decisions(Tools(env, calls));
    var pool, ran := RunPool(env, calls, replies, order);
    b := AnswerAll(env, calls, prepared, Collected(replies, pool));
    b := b.(events := announced + ran + b.events);
  }

  method AnswerAll(env: Env, calls: seq<ToolCall>, prepared: seq<(string, Spec)>, results: seq<ToolResult>)
    returns (b: Batch)
    requires |calls| == |results| == |prepared| && AllKnown(env, calls)
    requires forall j | 0 <= j < |calls| :: prepared[j] == (calls[j].id, LookupTool(env, calls[j]).value)
    ensures b == Answers(env, calls, results)
  {
    var messages, hadError, events := [], false, [];
    var failure: Option<FailureContext> := None;
    for i := 0 to |calls|
      invariant Batch(messages, hadError, failure, events) == Answers(env, calls[..i], results[..i])
    {
      assert calls[..i + 1][..i] == calls[..i] && results[..i + 1][..i] == results[..i];
      var (id, tool) := prepared[i];
      messages := messages + [Tool(id, tool.name, env.payload(tool.name, results[i]))];
      hadError := hadError || !results[i].status.Success?;
      if !results[i].status.Success? && failure.None? {
        failure := ClassifyToolFailure(results[i]);
      }
      events := events + [Reported(i, results[i].status)];
    }
    assert calls[..|calls|] == calls && results[..|results|] == results;
    b := Batch(messages, hadError, failure, events);
  }

  // ---------- answers, flags and failures ----------

  predicate NamesAgree(env: Env, calls: seq<ToolCall>) {
    forall i | 0 <= i < |calls| ::
      LookupTool(env, calls[i]).Some? && LookupTool(env, calls[i]).value.name == ShownName(calls[i])
  }

  lemma EligibleOutcome(env: Env, i: nat, call: ToolCall, r: Reply)
    requires EligibleCall(env, call, r)
    ensures var tool := LookupTool(env, call).value;
            OneCall(env, i, call, r) ==
            Outcome([Decided(i, tool, Approved)] + Execution(i, tool, r), ShownName(call), r.result, false)
  {
  }

  lemma SnocEqual(a: seq<Message>, b: seq<Message>, x: Message, y: Message)
    requires |a| == |b|
    ensures a + [x] == b + [y] <==> a == b && x == y
  {
    assert (a + [x])[..|a|] == a && (b + [y])[..|b|] == b;
    assert (a + [x])[|a|] == x && (b + [y])[|b|] == y;
  }

  lemma NamesAgreeSnoc(env: Env, calls: seq<ToolCall>)
    requires calls != [] && AllKnown(env, calls)
    ensures var n := |calls| - 1;
            NamesAgree(env, calls) <==>
            NamesAgree(env, calls[..n]) && LookupTool(env, calls[n]).value.name == ShownName(calls[n])
  {
    var n := |calls| - 1;
    assert forall i | 0 <= i < n :: calls[..n][i] == calls[i];
  }

  /** The two paths agree call by call on flag, failure and messages, up to the name shown. */
  lemma {:induction false} PathsAgree(env: Env, calls: seq<ToolCall>, replies: seq<Reply>, results: seq<ToolResult>)
    requires |calls| == |replies| == |results| && AllKnown(env, calls)
    requires forall i | 0 <= i < |calls| :: EligibleCall(env, calls[i], replies[i]) && results[i] == replies[i].result
    ensures var (p, s) := (Answers(env, calls, results), Sequential(env, calls, replies));
            && p.hadError == s.hadError && p.failure == s.failure
            && |p.messages| == |s.messages| == |calls|
            && (p.messages == s.messages <==> NamesAgree(env, calls))
  {
    if calls != [] {
      var n := |calls| - 1;
      PathsAgree(env, calls[..n], replies[..n], results[..n]);
      EligibleOutcome(env, n, calls[n], replies[n]);
      var p := Answers(env, calls[..n], results[..n]).messages;
      var s := Sequential(env, calls[..n], replies[..n]).messages;
      var (tool, shown) := (LookupTool(env, calls[n]).value.name, ShownName(calls[n]));
      SnocEqual(p, s, Tool(calls[n].id, tool, env.payload(tool, results[n])),
                Tool(calls[n].id, shown, env.payload(shown, results[n])));
      NamesAgreeSnoc(env, calls);
    }
  }

  // ---------- traces ----------

  /** The events of one call, in the order of the trace. */
  function Project(events: seq<Event>, i: nat): seq<Event> {
    if events == [] then []
    else Project(events[..|events| - 1], i) +
         (if events[|events| - 1].call == i then [events[|events| - 1]] else [])
  }

  lemma {:induction false} ProjectConcat(a: seq<Event>, b: seq<Event>, i: nat)
    ensures Project(a + b, i) == Project(a, i) + Project(b, i)
  {
    if b == [] {
      Unit(a);
      Unit(Project(a, i));
    } else {
      var (front, last) := (b[..|b| - 1], b[|b| - 1]);
      ProjectConcat(a, front, i);
      FrontOfConcat(a, b);
      Assoc(Project(a, i), Project(front, i), if last.call == i then [last] else []);
    }
  }

  lemma {:induction false} ProjectAll(events: seq<Event>, c: nat, i: nat)
    requires forall k | 0 <= k < |events| :: events[k].call == c
    ensures Project(events, i) == if i == c then events else []
  {
    if events != [] {
      ProjectAll(events[..|events| - 1], c, i);
      Snoc(events);
    }
  }

  /** The four events of a call that is simply approved. */
  function Simple(i: nat, tool: Spec, r: Reply): seq<Event> {
    [Decided(i, tool, Approved)] + Execution(i, tool, r)
  }

  lemma OneCallItsOwn(env: Env, i: nat, call: ToolCall, r: Reply)
    ensures forall k | 0 <= k < |OneCall(env, i, call, r).events| :: OneCall(env, i, call, r).events[k].call == i
  {
  }

  lemma LastCallProject(env: Env, calls: seq<ToolCall>, replies: seq<Reply>, i: nat)
    requires |calls| == |replies| && calls != []
    ensures var n := |calls| - 1;
            Project(Sequential(env, calls, replies).events, i) ==
            Project(Sequential(env, calls[..n], replies[..n]).events, i) +
            (if i == n then OneCall(env, n, calls[n], replies[n]).events else [])
  {
    var n := |calls| - 1;
    SequentialEvents(env, calls, replies);
    ProjectConcat(Sequential(env, calls[..n], replies[..n]).events, OneCall(env, n, calls[n], replies[n]).events, i);
    OneCallItsOwn(env, n, calls[n], replies[n]);
    ProjectAll(OneCall(env, n, calls[n], replies[n]).events, n, i);
  }

  lemma {:induction false} SequentialProject(env: Env, calls: seq<ToolCall>, replies: seq<Reply>, i: nat)
    requires |calls| == |replies|
    ensures Project(Sequential(env, calls, replies).events, i) ==
            if i < |calls| then OneCall(env, i, calls[i], replies[i]).events else []
  {
    if calls == [] {
      assert Sequential(env, calls, replies).events == [];
    } else {
      var n := |calls| - 1;
      SequentialProject(env, calls[..n], replies[..n], i);
      LastCallProject(env, calls, replies, i);
      if i == n {
        Unit(OneCall(env, n, calls[n], replies[n]).events);
      } else {
        Unit(Project(Sequential(env, calls[..n], replies[..n]).events, i));
        assert i < n ==> calls[..n][i] == calls[i] && replies[..n][i] == replies[i];
      }
    }
  }

  lemma {:induction false} DecisionsProject(tools: seq<Spec>, i: nat)
    ensures Project(Decisions(tools), i) == if i < |tools| then [Decided(i, tools[i], Approved)] else []
  {
    if tools != [] {
      var n := |tools| - 1;
      var last := [Decided(n, tools[n], Approved)];
      DecisionsProject(tools[..n], i);
      ProjectConcat(Decisions(tools[..n]), last, i);
      ProjectAll(last, n, i);
      Unit(Project(Decisions(tools[..n]), i));
      Unit(last);
    }
  }

  lemma {:induction false} ReportsProject(results: seq<ToolResult>, i: nat)
    ensures Project(Reports(results), i) == if i < |results| then [Reported(i, results[i].status)] else []
  {
    if results != [] {
      var n := |results| - 1;
      var last := [Reported(n, results[n].status)];
      ReportsProject(results[..n], i);
      ProjectConcat(Reports(results[..n]), last, i);
      ProjectAll(last, n, i);
      Unit(Project(Reports(results[..n]), i));
      Unit(last);
    }
  }

  lemma AnswersEvents(env: Env, calls: seq<ToolCall>, results: seq<ToolResult>)
    requires |calls| == |results| && AllKnown(env, calls)
    ensures Answers(env, calls, results).events == Reports(results)
  {
  }

  /** How far the pool has come with one call. */
  function Progress(env: Env, calls: seq<ToolCall>, replies: seq<Reply>, p: Pool, i: nat): seq<Event>
    requires |calls| == |replies| && AllKnown(env, calls)
  {
    if i >= |calls| then []
    else if i in p.results then [Executed(i, LookupTool(env, calls[i]).value, replies[i].later), Returned(i)]
    else if i in p.running then [Executed(i, LookupTool(env, calls[i]).value, replies[i].later)]
    else []
  }

  lemma ProgressStep(env: Env, calls: seq<ToolCall>, replies: seq<Reply>, p: Pool, e: PoolEvent, i: nat)
    requires |calls| == |replies| && AllKnown(env, calls) && PoolInv(replies, p) && PoolCan(replies, p, e)
    ensures Progress(env, calls, replies, PoolNext(replies, p, e), i)
            == Progress(env, calls, replies, p, i) + Project(Ran(env, calls, replies, e), i)
  {
    if e.Take? {
      Unit(Progress(env, calls, replies, p, i));
    } else {
      ProjectAll(Ran(env, calls, replies, e), e.i, i);
    }
  }

  lemma {:induction false} ExecutionsProject(env: Env, calls: seq<ToolCall>, replies: seq<Reply>,
                                             order: seq<PoolEvent>, i: nat)
    requires |calls| == |replies| && AllKnown(env, calls) && PoolRun(replies, order).Some?
    ensures Project(Executions(env, calls, replies, order), i)
            == Progress(env, calls, replies, PoolRun(replies, order).value, i)
  {
    if order != [] {
      var (front, e) := (order[..|order| - 1], order[|order| - 1]);
      ExecutionsProject(env, calls, replies, front, i);
      PoolRunInv(replies, front);
      ProgressStep(env, calls, replies, PoolRun(replies, front).value, e, i);
      ProjectConcat(Executions(env, calls, replies, front), Ran(env, calls, replies, e), i);
    }
  }

  lemma ProjectThree(d: seq<Event>, x: seq<Event>, r: seq<Event>, i: nat)
    ensures Project(d + x + r, i) == Project(d, i) + Project(x, i) + Project(r, i)
  {
    ProjectConcat(d + x, r, i);
    ProjectConcat(d, x, i);
  }

  lemma SimpleParts(i: nat, tool: Spec, r: Reply)
    ensures [Decided(i, tool, Approved)] + [Executed(i, tool, r.later), Returned(i)] + [Reported(i, r.result.status)]
            == Simple(i, tool, r)
  {
  }

  lemma WholeExecution(env: Env, calls: seq<ToolCall>, replies: seq<Reply>, order: seq<PoolEvent>, i: nat)
    requires |calls| == |replies| && AllKnown(env, calls) && ValidOrder(replies, order)
    ensures Project(Executions(env, calls, replies, order), i) ==
            if i < |calls| then [Executed(i, LookupTool(env, calls[i]).value, replies[i].later), Returned(i)] else []
  {
    ExecutionsProject(env, calls, replies, order, i);
  }

  /** In every order of the pool each call is decided, executed, returns and is reported, once
      each and in this order. */
  lemma ParallelProject(env: Env, calls: seq<ToolCall>, replies: seq<Reply>, order: seq<PoolEvent>, i: nat)
    requires |calls| == |replies| && AllKnown(env, calls) && ValidOrder(replies, order)
    ensures Project(Parallel(env, calls, replies, order).events, i) ==
            if i < |calls| then Simple(i, LookupTool(env, calls[i]).value, replies[i]) else []
  {
    var results := Collected(replies, PoolRun(replies, order).value);
    CollectedExact(replies, order);
    AnswersEvents(env, calls, results);
    ProjectThree(Decisions(Tools(env, calls)), Executions(env, calls, replies, order), Reports(results), i);
    DecisionsProject(Tools(env, calls), i);
    WholeExecution(env, calls, replies, order, i);
    ReportsProject(results, i);
    if i < |calls| {
      SimpleParts(i, LookupTool(env, calls[i]).value, replies[i]);
    }
  }

  lemma {:induction false} ProjectCount(events: seq<Event>, e: Event)
    ensures multiset(events)[e] == multiset(Project(events, e.call))[e]
  {
    if events != [] {
      var (front, last) := (events[..|events| - 1], events[|events| - 1]);
      ProjectCount(front, e);
      Snoc(events);
      assert multiset(events) == multiset(front) + multiset([last]);
    }
  }

  lemma SameProjections(a: seq<Event>, b: seq<Event>)
    requires forall i: nat :: Project(a, i) == Project(b, i)
    ensures multiset(a) == multiset(b)
  {
    forall e: Event ensures multiset(a)[e] == multiset(b)[e] {
      ProjectCount(a, e);
      ProjectCount(b, e);
      assert Project(a, e.call) == Project(b, e.call);
    }
  }

  lemma TracesProject(env: Env, calls: seq<ToolCall>, replies: seq<Reply>, order: seq<PoolEvent>, i: nat)
    requires |calls| == |replies| && Eligible(env, calls, replies) && AllKnown(env, calls) && ValidOrder(replies, order)
    ensures Project(Parallel(env, calls, replies, order).events, i)
            == Project(Sequential(env, calls, replies).events, i)
  {
    ParallelProject(env, calls, replies, order, i);
    SequentialProject(env, calls, replies, i);
    if i < |calls| {
      EligibleOutcome(env, i, calls[i], replies[i]);
    }
  }

  /** The two traces are never the same: in parallel the second call is decided before the
      first is executed. */
  lemma TracesDiffer(env: Env, calls: seq<ToolCall>, replies: seq<Reply>, order: seq<PoolEvent>)
    requires |calls| == |replies| && Eligible(env, calls, replies) && AllKnown(env, calls) && ValidOrder(replies, order)
    ensures Parallel(env, calls, replies, order).events != Sequential(env, calls, replies).events
  {
    var (p, s) := (Parallel(env, calls, replies, order).events, Sequential(env, calls, replies).events);
    assert p[1] == Decisions(Tools(env, calls))[1];
    SequentialSecond(env, calls, replies);
  }

  lemma {:induction false} SequentialSecond(env: Env, calls: seq<ToolCall>, replies: seq<Reply>)
    requires |calls| == |replies| && calls != []
    requires forall i | 0 <= i < |calls| :: EligibleCall(env, calls[i], replies[i])
    ensures |Sequential(env, calls, replies).events| > 1 && Sequential(env, calls, replies).events[1].Executed?
  {
    var n := |calls| - 1;
    EligibleOutcome(env, n, calls[n], replies[n]);
    SequentialEvents(env, calls, replies);
    if n == 0 {
      assert Sequential(env, calls[..n], replies[..n]).events == [];
    } else {
      SequentialSecond(env, calls[..n], replies[..n]);
    }
  }

  /** Every order in which the pool can work an eligible batch off gives the sequential path's
      error flag and first failure, each call's own events, and so the same events in all,
      though never in the same order; and it gives the same messages exactly when each tool is
      registered under the requested name. */
  lemma EveryOrderAgrees(env: Env, calls: seq<ToolCall>, replies: seq<Reply>, order: seq<PoolEvent>)
    requires |calls| == |replies| && Eligible(env, calls, replies) && ValidOrder(replies, order)
    ensures AllKnown(env, calls)
    ensures var (p, s) := (Parallel(env, calls, replies, order), Sequential(env, calls, replies));
            && p.hadError == s.hadError && p.failure == s.failure
            && (forall i: nat :: Project(p.events, i) == Project(s.events, i))
            && multiset(p.events) == multiset(s.events) && p.events != s.events
            && (p.messages == s.messages <==> NamesAgree(env, calls))
  {
    EligibleKnown(env, calls, replies);
    CollectedExact(replies, order);
    PathsAgree(env, calls, replies, Collected(replies, PoolRun(replies, order).value));
    forall i: nat
      ensures Project(Parallel(env, calls, replies, order).events, i)
            == Project(Sequential(env, calls, replies).events, i)
    {
      TracesProject(env, calls, replies, order, i);
    }
    SameProjections(Parallel(env, calls, replies, order).events, Sequential(env, calls, replies).events);
    TracesDiffer(env, calls, replies, order);
  }

  lemma EligibleKnown(env: Env, calls: seq<ToolCall>, replies: seq<Reply>)
    requires |calls| == |replies| && Eligible(env, calls, replies)
    ensures AllKnown(env, calls)
  {
    assert forall i | 0 <= i < |calls| :: EligibleCall(env, calls[i], replies[i]);
  }

  // ---------- safety of the parallel trace ----------

  lemma {:induction false} ExecutionsKnown(env: Env, calls: seq<ToolCall>, replies: seq<Reply>,
                                           order: seq<PoolEvent>, k: nat)
    requires |calls| == |replies| && AllKnown(env, calls)
    requires k < |Executions(env, calls, replies, order)|
    ensures var e := Executions(env, calls, replies, order)[k];
            && !e.Decided?
            && (e.Executed? ==> e.call < |calls| && e.tool == LookupTool(env, calls[e.call]).value)
  {
    var front := Executions(env, calls, replies, order[..|order| - 1]);
    if k < |front| {
      ExecutionsKnown(env, calls, replies, order[..|order| - 1], k);
    } else {
      assert Executions(env, calls, replies, order)[k] == Ran(env, calls, replies, order[|order| - 1])[k - |front|];
    }
  }

  /** Where an execution of the parallel trace stands, and what it executes. */
  lemma ParallelExecuted(env: Env, calls: seq<ToolCall>, replies: seq<Reply>, order: seq<PoolEvent>, k: nat)
    requires |calls| == |replies| && AllKnown(env, calls) && ValidOrder(replies, order)
    requires k < |Parallel(env, calls, replies, order).events|
    requires Parallel(env, calls, replies, order).events[k].Executed?
    ensures var e := Parallel(env, calls, replies, order).events[k];
            |calls| <= k && e.call < |calls| && e.tool == LookupTool(env, calls[e.call]).value
  {
    var results := Collected(replies, PoolRun(replies, order).value);
    var (d, x) := (Decisions(Tools(env, calls)), Executions(env, calls, replies, order));
    if |d| <= k < |d| + |x| {
      ExecutionsKnown(env, calls, replies, order, k - |d|);
    } else if |d| + |x| <= k {
      AnswersEvents(env, calls, results);
    }
  }

  /** In every order of the pool each execution follows the approval of its own call. */
  lemma ParallelJustified(env: Env, calls: seq<ToolCall>, replies: seq<Reply>, order: seq<PoolEvent>)
    requires |calls| == |replies| && AllKnown(env, calls) && ValidOrder(replies, order)
    ensures Justified(Parallel(env, calls, replies, order).events)
  {
    var events := Parallel(env, calls, replies, order).events;
    forall k | 0 <= k < |events| && events[k].Executed? ensures JustifiedAt(events, k) {
      ParallelExecuted(env, calls, replies, order, k);
      var j := events[k].call;
      assert events[j] == Decisions(Tools(env, calls))[j];
    }
  }

  lemma ParallelReadOnly(env: Env, calls: seq<ToolCall>, replies: seq<Reply>, order: seq<PoolEvent>, k: nat)
    requires |calls| == |replies| && Eligible(env, calls, replies) && AllKnown(env, calls) && ValidOrder(replies, order)
    requires k < |Parallel(env, calls, replies, order).events|
    requires Parallel(env, calls, replies, order).events[k].Executed?
    ensures Parallel(env, calls, replies, order).events[k].tool.readOnly
  {
    ParallelExecuted(env, calls, replies, order, k);
    var i := Parallel(env, calls, replies, order).events[k].call;
    assert EligibleCall(env, calls[i], replies[i]);
  }

  /** The parallel path answers each call with its own id, in order. */
  lemma {:induction false} ParallelAnswers(env: Env, calls: seq<ToolCall>, results: seq<ToolResult>)
    requires |calls| == |results| && AllKnown(env, calls)
    ensures var m := Answers(env, calls, results).messages;
            |m| == |calls| && forall i | 0 <= i < |m| :: m[i].Tool? && m[i].id == calls[i].id
  {
    if calls != [] {
      ParallelAnswers(env, calls[..|calls| - 1], results[..|results| - 1]);
    }
  }

  // ---------- choosing the path ----------

  /** `_handle_tool_calls`, with the order in which the pool works a parallel batch off. */
  function Handled(env: Env, calls: seq<ToolCall>, replies: seq<Reply>, order: seq<PoolEvent>): Batch
    requires |calls| == |replies|
  {
    if Eligible(env, calls, replies) then
      EligibleKnown(env, calls, replies);
      Parallel(env, calls, replies, Schedule(replies, order))
    else Sequential(env, calls, replies)
  }

  method HandleToolCalls(env: Env, calls: seq<ToolCall>, replies: seq<Reply>, order: seq<PoolEvent>) returns (b: Batch)
    requires |calls| == |replies|
    ensures b == Handled(env, calls, replies, order)
  {
    if Eligible(env, calls, replies) {
      b := HandleParallel(env, calls, replies, Schedule(replies, order));
    } else {
      b := HandleSequential(env, calls, replies);
    }
  }

  ghost predicate OnlyReadOnly(events: seq<Event>) {
    forall k | 0 <= k < |events| && events[k].Executed? :: events[k].tool.readOnly
  }

  lemma SequentialReadOnly(env: Env, calls: seq<ToolCall>, replies: seq<Reply>)
    requires |calls| == |replies| && forall i | 0 <= i < |replies| :: replies[i].posture.ReadOnly?
    ensures OnlyReadOnly(Sequential(env, calls, replies).events)
  {
    forall k | 0 <= k < |Sequential(env, calls, replies).events| && Sequential(env, calls, replies).events[k].Executed?
      ensures Sequential(env, calls, replies).events[k].tool.readOnly
    {
      ReadOnlyPosture(env, calls, replies, k);
    }
  }

  lemma EligibleGuarantees(env: Env, calls: seq<ToolCall>, replies: seq<Reply>, order: seq<PoolEvent>)
    requires |calls| == |replies| && Eligible(env, calls, replies) && AllKnown(env, calls) && ValidOrder(replies, order)
    ensures var b := Parallel(env, calls, replies, order);
            && |b.messages| == |calls|
            && (forall i | 0 <= i < |calls| :: b.messages[i].Tool? && b.messages[i].id == calls[i].id)
            && (b.hadError ==> b.failure.Some?)
            && (b.failure.Some? <==> AnyFails(env, calls, replies))
            && Justified(b.events) && OnlyReadOnly(b.events)
  {
    var results := Collected(replies, PoolRun(replies, order).value);
    CollectedExact(replies, order);
    ParallelAnswers(env, calls, results);
    PathsAgree(env, calls, replies, results);
    FailureRecorded(env, calls, replies);
    ParallelJustified(env, calls, replies, order);
    var events := Parallel(env, calls, replies, order).events;
    forall k | 0 <= k < |events| && events[k].Executed? ensures events[k].tool.readOnly
    {
      ParallelReadOnly(env, calls, replies, order, k);
    }
  }

  /** On both paths, and for every order of the pool: one answer per call with its id; a failure
      is recorded exactly when some result is no success, and an error flag never without one;
      every execution follows an approval of its own call; and if the posture is read-only at
      every check, only read-only tools run. */
  lemma HandledGuarantees(env: Env, calls: seq<ToolCall>, replies: seq<Reply>, order: seq<PoolEvent>)
    requires |calls| == |replies|
    ensures var b := Handled(env, calls, replies, order);
            && |b.messages| == |calls|
            && (forall i | 0 <= i < |calls| :: b.messages[i].Tool? && b.messages[i].id == calls[i].id)
            && (b.hadError ==> b.failure.Some?)
            && (b.failure.Some? <==> AnyFails(env, calls, replies))
            && Justified(b.events)
            && ((forall i | 0 <= i < |replies| :: replies[i].posture.ReadOnly?) ==> OnlyReadOnly(b.events))
  {
    if Eligible(env, calls, replies) {
      EligibleKnown(env, calls, replies);
      EligibleGuarantees(env, calls, replies, Schedule(replies, order));
    } else {
      SequentialAnswers(env, calls, replies);
      FailureRecorded(env, calls, replies);
      SequentialJustified(env, calls, replies);
      if forall i | 0 <= i < |replies| :: replies[i].posture.ReadOnly? {
        SequentialReadOnly(env, calls, replies);
      }
    }
  }

  // ---------- a posture that changes after the check ----------

  lemma ReadOnlyNeverBreaks(events: seq<Event>)
    requires OnlyReadOnly(events)
    ensures !BreaksReadOnly(events)
  {
  }

  lemma EligibleNotOvertaken(env: Env, calls: seq<ToolCall>, replies: seq<Reply>)
    requires |calls| == |replies| && Eligible(env, calls, replies)
    ensures !AnyOvertaken(env, calls, replies)
  {
    forall i | 0 <= i < |calls| ensures !Overtaken(env, calls[i], replies[i]) {
      assert EligibleCall(env, calls[i], replies[i]);
    }
  }

  /** On both paths and in every order of the pool: side effects happen under a read-only posture
      if and only if it became read-only after a permitted call with side effects was checked. A
      parallel batch never does so. */
  lemma HandledSwitchExact(env: Env, calls: seq<ToolCall>, replies: seq<Reply>, order: seq<PoolEvent>)
    requires |calls| == |replies|
    ensures BreaksReadOnly(Handled(env, calls, replies, order).events) <==> AnyOvertaken(env, calls, replies)
  {
    if Eligible(env, calls, replies) {
      EligibleKnown(env, calls, replies);
      EligibleGuarantees(env, calls, replies, Schedule(replies, order));
      ReadOnlyNeverBreaks(Handled(env, calls, replies, order).events);
      EligibleNotOvertaken(env, calls, replies);
    } else {
      SwitchExact(env, calls, replies);
    }
  }
}
