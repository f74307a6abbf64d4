/** One plan step: rounds of model calls and tool batches until the step is answered, a retry
    budget is exhausted, the rounds run out or a stop is requested. */
module StepLoop {
  import opened Text
  import opened Recovery
  import opened ToolBatch
  import opened ParallelBatch
  import opened Anthropic

  datatype Config = Config(maxErrors: int, maxRounds: nat, unified: bool)

  /** The constructor's clamp `max(1, max_step_rounds)`. */
  function MakeConfig(maxErrors: int, maxRounds: int, unified: bool): Config {
    Config(maxErrors, if maxRounds < 1 then 1 else maxRounds, unified)
  }

  /** The outside world's part in a tool batch: in each call, and in the order of the pool. */
  datatype World = World(replies: nat -> Reply, order: seq<PoolEvent>)

  /** A model generation: an error with the text in its usage, or text and tool calls. The
      outside world's part in each call comes with it. */
  datatype ModelReply =
    | ModelError(error: string)
    | Answer(text: string, calls: seq<ToolCall>, world: World)

  /** What one round meets: whether a stop was requested before it, and the model's reply. */
  datatype Round = Round(stop: bool, reply: ModelReply)

  datatype FailureKind = NoKind | ToolBudget | ModelBudget | RoundBudget

  datatype StepState = StepState(
    conversation: seq<Message>,
    counters: Counters,
    attempts: nat,
    lastError: string,
    failure: Option<FailureContext>,
    modelCalls: nat,
    retries: nat,                    // failures retried since the last clean batch
    batches: seq<seq<Event>>)        // what each tool batch did

  datatype StepResult = StepResult(summary: Option<string>, kind: FailureKind, state: StepState)

  datatype Next = Go(state: StepState) | Stop(result: StepResult)

  const FRESH := StepState([], map[], 0, "", None, 0, 0, [])

  function Replies(calls: seq<ToolCall>, world: World): seq<Reply> {
    seq(|calls|, i requires 0 <= i < |calls| => world.replies(i))
  }

  /** A classified failure: counted, then either retried or the end of the step. */
  function Failed(cfg: Config, s: StepState, f: FailureContext, kind: FailureKind): Next {
    var counters := Counted(s.counters, f.failureClass);
    var t := s.(counters := counters, attempts := Attempts(counters, f.failureClass), failure := Some(f));
    if Exhausts(s.counters, f.failureClass, cfg.maxErrors) then Stop(StepResult(None, kind, t))
    else Go(t.(retries := s.retries + 1))
  }

  function AfterModelError(cfg: Config, s: StepState, error: string): Next {
    var lastError := if Strip(error) != "" then Strip(error) else s.lastError;
    var conversation := if error != "" then s.conversation + [Assistant("", [])] else s.conversation;
    Failed(cfg, s.(lastError := lastError, conversation := conversation), ClassifyModelFailure(lastError), ModelBudget)
  }

  function AfterBatch(cfg: Config, s: StepState, b: Batch): Next {
    var t := s.(conversation := s.conversation + b.messages, batches := s.batches + [b.events]);
    if b.failure.Some? || b.hadError then
      var f := if b.failure.Some? then b.failure.value else FailureContext(Unknown, "Unknown tool failure.");
      Failed(cfg, t, f, ToolBudget)
    else Go(t.(counters := map[], attempts := 0, failure := None, retries := 0))
  }

  function WithCalls(s: StepState, text: string, calls: seq<ToolCall>): StepState {
    s.(conversation := s.conversation + [Assistant(text, calls)])
  }

  /** A reply without tool calls: an answer, else a summary of what was observed, else nothing. */
  function AfterText(s: StepState, text: string): Next {
    if Strip(text) != "" then
      Stop(StepResult(Some(Strip(text)), NoKind, s.(conversation := s.conversation + [Assistant(text, [])])))
    else if s.conversation != [] then Stop(StepResult(Some(Observations(s.conversation)), NoKind, s))
    else Go(s)
  }

  function Observations(conversation: seq<Message>): string {
    if conversation == [] then "Step completed."
    else
      var last := conversation[|conversation| - 1];
      if last.Tool? then
        "Step completed after tool execution. Latest observation: "
        + (if |last.content| > 240 then last.content[..240] else last.content)
      else Observations(conversation[..|conversation| - 1])
  }

  function Heard(cfg: Config, env: Env, s: StepState, reply: ModelReply): Next {
    match reply
    case ModelError(error) => AfterModelError(cfg, s, error)
    case Answer(text, calls, world) =>
      if calls != [] then RoundBatch(cfg, env, s, text, calls, world) else AfterText(s, text)
  }

  function Called(s: StepState): StepState {
    s.(modelCalls := s.modelCalls + 1)
  }

  /** One turn of the round loop. */
  function RoundStep(cfg: Config, env: Env, s: StepState, r: Round): Next {
    if r.stop then Stop(StepResult(None, NoKind, s)) else Heard(cfg, env, Called(s), r.reply)
  }

  function RoundBatch(cfg: Config, env: Env, s: StepState, text: string, calls: seq<ToolCall>, world: World): Next {
    AfterBatch(cfg, WithCalls(s, text, calls), Handled(env, calls, Replies(calls, world), world.order))
  }

  /** `_run_step` after `k` rounds: still going, or ended before. */
  function Rounds(cfg: Config, env: Env, rounds: nat -> Round, k: nat): Next {
    if k == 0 then Go(FRESH)
    else
      match Rounds(cfg, env, rounds, k - 1)
      case Stop(result) => Stop(result)
      case Go(s) => RoundStep(cfg, env, s, rounds(k - 1))
  }

  function RunStep(cfg: Config, env: Env, rounds: nat -> Round): StepResult {
    match Rounds(cfg, env, rounds, cfg.maxRounds)
    case Stop(result) => result
    case Go(s) => StepResult(None, RoundBudget, s)
  }

  lemma StoppedNext(cfg: Config, env: Env, rounds: nat -> Round, k: nat, result: StepResult)
    requires Rounds(cfg, env, rounds, k) == Stop(result)
    ensures Rounds(cfg, env, rounds, k + 1) == Stop(result)
  {
  }

  lemma {:induction false} StoppedStays(cfg: Config, env: Env, rounds: nat -> Round, k: nat, n: nat, result: StepResult)
    requires k <= n && Rounds(cfg, env, rounds, k) == Stop(result)
    ensures Rounds(cfg, env, rounds, n) == Stop(result)
    decreases n - k
  {
    if k < n {
      StoppedNext(cfg, env, rounds, k, result);
      StoppedStays(cfg, env, rounds, k + 1, n, result);
    }
  }

  /** The loop as written, over the variables of the step. */
  class StepRunner {
    const cfg: Config
    const env: Env
    var conversation: seq<Message>
    const failures: FailureCounters
    var attempts: nat
    var lastError: string
    var failure: Option<FailureContext>
    var modelCalls: nat
    var retries: nat
    var batches: seq<seq<Event>>

    constructor (cfg: Config, env: Env)
      ensures this.cfg == cfg && this.env == env && fresh(failures) && View() == FRESH
    {
      this.cfg, this.env := cfg, env;
      failures := new FailureCounters();
      conversation, attempts, lastError, failure := [], 0, "", None;
      modelCalls, retries, batches := 0, 0, [];
    }

    function View(): StepState
      reads this, failures
    {
      StepState(conversation, failures.counters, attempts, lastError, failure, modelCalls, retries, batches)
    }

    method RecordFailure(f: FailureContext, kind: FailureKind) returns (result: Option<StepResult>)
      modifies this, failures
      ensures match result
              case None => Failed(cfg, old(View()), f, kind) == Go(View())
              case Some(r) => Failed(cfg, old(View()), f, kind) == Stop(r)
    {
      failure := Some(f);
      var exhausted;
      attempts, exhausted := failures.Update(f.failureClass, cfg.maxErrors);
      if exhausted {
        return Some(StepResult(None, kind, View()));
      }
      retries := retries + 1;
      return None;
    }

    method RecordBatch(b: Batch) returns (result: Option<StepResult>)
      modifies this, failures
      ensures match result
              case None => AfterBatch(cfg, old(View()), b) == Go(View())
              case Some(r) => AfterBatch(cfg, old(View()), b) == Stop(r)
    {
      conversation, batches := conversation + b.messages, batches + [b.events];
      if b.failure.Some? || b.hadError {
        var f := if b.failure.Some? then b.failure.value else FailureContext(Unknown, "Unknown tool failure.");
        result := RecordFailure(f, ToolBudget);
      } else {
        failures.Clear();
        attempts, failure, retries := 0, None, 0;
        result := None;
      }
    }

    method HandleBatch(text: string, calls: seq<ToolCall>, world: World) returns (result: Option<StepResult>)
      modifies this, failures
      ensures match result
              case None => RoundBatch(cfg, env, old(View()), text, calls, world) == Go(View())
              case Some(r) => RoundBatch(cfg, env, old(View()), text, calls, world) == Stop(r)
    {
      conversation := conversation + [Assistant(text, calls)];
      var b := HandleToolCalls(env, calls, Replies(calls, world), world.order);
      result := RecordBatch(b);
    }

    method HandleError(error: string) returns (result: Option<StepResult>)
      modifies this, failures
      ensures match result
              case None => AfterModelError(cfg, old(View()), error) == Go(View())
              case Some(r) => AfterModelError(cfg, old(View()), error) == Stop(r)
    {
      if Strip(error) != "" {
        lastError := Strip(error);
      }
      if error != "" {
        conversation := conversation + [Assistant("", [])];
      }
      result := RecordFailure(ClassifyModelFailure(lastError), ModelBudget);
    }

    method HandleText(text: string) returns (result: Option<StepResult>)
      modifies this, failures
      ensures match result
              case None => AfterText(old(View()), text) == Go(View())
              case Some(r) => AfterText(old(View()), text) == Stop(r)
    {
      if Strip(text) != "" {
        conversation := conversation + [Assistant(text, [])];
        return Some(StepResult(Some(Strip(text)), NoKind, View()));
      }
      if conversation != [] {
        return Some(StepResult(Some(Observations(conversation)), NoKind, View()));
      }
      result := None;
    }

    method HandleReply(reply: ModelReply) returns (result: Option<StepResult>)
      modifies this, failures
      ensures match result
              case None => Heard(cfg, env, old(View()), reply) == Go(View())
              case Some(r) => Heard(cfg, env, old(View()), reply) == Stop(r)
    {
      match reply {
        case ModelError(error) => result := HandleError(error);
        case Answer(text, calls, world) =>
          if calls != [] {
            result := HandleBatch(text, calls, world);
          } else {
            result := HandleText(text);
          }
      }
    }

    method CountCall()
      modifies this
      ensures View() == Called(old(View()))
    {
      modelCalls := modelCalls + 1;
    }

    method OneRound(round: Round) returns (result: Option<StepResult>)
      modifies this, failures
      ensures match result
              case None => RoundStep(cfg, env, old(View()), round) == Go(View())
              case Some(r) => RoundStep(cfg, env, old(View()), round) == Stop(r)
    {
      if round.stop {
        return Some(StepResult(None, NoKind, View()));
      }
      CountCall();
      result := HandleReply(round.reply);
    }

    method Run(rounds: nat -> Round) returns (result: StepResult)
      requires View() == FRESH
      modifies this, failures
      ensures result == RunStep(cfg, env, rounds)
    {
      for k := 0 to cfg.maxRounds
        invariant Rounds(cfg, env, rounds, k) == Go(View())
      {
        var ended := OneRound(rounds(k));
        if ended.Some? {
          assert Rounds(cfg, env, rounds, k + 1) == Stop(ended.value);
          StoppedStays(cfg, env, rounds, k + 1, cfg.maxRounds, ended.value);
          return ended.value;
        }
      }
      result := StepResult(None, RoundBudget, View());
    }
  }

  // ---------- what every step keeps ----------

  predicate StepInv(cfg: Config, s: StepState) {
    && Paired(s.conversation)
    && WithinBudgets(s.counters, cfg.maxErrors)
    && s.retries == TotalAttempts(s.counters, CLASSES)
  }

  lemma FailedKeeps(cfg: Config, s: StepState, f: FailureContext, kind: FailureKind)
    requires StepInv(cfg, s)
    ensures s.retries <= RetryLimit(cfg.maxErrors)
    ensures match Failed(cfg, s, f, kind)
            case Go(t) => StepInv(cfg, t) && t.retries == s.retries + 1
            case Stop(r) =>
              && r.summary.None? && r.kind == kind && r.state.failure == Some(f)
              && r.state.conversation == s.conversation && r.state.retries == s.retries
              && r.state.attempts >= Cap(f.failureClass, cfg.maxErrors)
  {
    AttemptsBounded(s.counters, cfg.maxErrors, CLASSES);
    if !Exhausts(s.counters, f.failureClass, cfg.maxErrors) {
      RetryKeepsBudgets(s.counters, f.failureClass, cfg.maxErrors);
    }
  }

  /** A call message followed by its batch's answers is well paired. */
  lemma BatchPaired(env: Env, text: string, calls: seq<ToolCall>, replies: seq<Reply>, order: seq<PoolEvent>)
    requires |calls| == |replies|
    ensures Paired([Assistant(text, calls)] + Handled(env, calls, replies, order).messages)
  {
    HandledGuarantees(env, calls, replies, order);
    AnswersPaired(text, calls, Handled(env, calls, replies, order).messages);
  }

  lemma AnswersPaired(text: string, calls: seq<ToolCall>, answers: seq<Message>)
    requires AnswersCalls(answers, calls)
    ensures Paired([Assistant(text, calls)] + answers)
  {
    var ms := [Assistant(text, calls)] + answers;
    assert ms[1..1 + |calls|] == answers && ms[1 + |calls|..] == [];
  }

  lemma ErrorKeeps(cfg: Config, s: StepState, error: string)
    requires StepInv(cfg, s)
    ensures NextKeeps(cfg, s, AfterModelError(cfg, s, error))
  {
    var lastError := if Strip(error) != "" then Strip(error) else s.lastError;
    var noted := [Assistant("", [])];
    assert noted[1..1] == [] && noted[1..] == [];
    PairedConcat(s.conversation, noted);
    var conversation := if error != "" then s.conversation + noted else s.conversation;
    var t := s.(lastError := lastError, conversation := conversation);
    FailedKeeps(cfg, t, ClassifyModelFailure(lastError), ModelBudget);
  }

  lemma ConversationPaired(conversation: seq<Message>, env: Env, text: string, calls: seq<ToolCall>,
                           replies: seq<Reply>, order: seq<PoolEvent>)
    requires |calls| == |replies| && Paired(conversation)
    ensures Paired(conversation + [Assistant(text, calls)] + Handled(env, calls, replies, order).messages)
  {
    var answers := Handled(env, calls, replies, order).messages;
    BatchPaired(env, text, calls, replies, order);
    PairedConcat(conversation, [Assistant(text, calls)] + answers);
    assert conversation + ([Assistant(text, calls)] + answers) == conversation + [Assistant(text, calls)] + answers;
  }

  lemma BatchKeeps(cfg: Config, s: StepState, b: Batch)
    requires Paired(s.conversation + b.messages) && WithinBudgets(s.counters, cfg.maxErrors)
    requires s.retries == TotalAttempts(s.counters, CLASSES)
    ensures NextKeeps(cfg, s, AfterBatch(cfg, s, b))
  {
    var t := s.(conversation := s.conversation + b.messages, batches := s.batches + [b.events]);
    NoAttempts(CLASSES);
    FailedKeeps(cfg, t, if b.failure.Some? then b.failure.value else FailureContext(Unknown, "Unknown tool failure."),
                ToolBudget);
  }

  lemma TextKeeps(cfg: Config, s: StepState, text: string)
    requires StepInv(cfg, s)
    ensures NextKeeps(cfg, s, AfterText(s, text))
  {
    AttemptsBounded(s.counters, cfg.maxErrors, CLASSES);
    var answer := [Assistant(text, [])];
    assert answer[1..1] == [] && answer[1..] == [];
    PairedConcat(s.conversation, answer);
  }

  predicate ResultInv(cfg: Config, r: StepResult) {
    && Paired(r.state.conversation)
    && r.state.retries <= RetryLimit(cfg.maxErrors)
    && (r.summary.Some? ==> r.kind.NoKind?)
    && (r.kind.ToolBudget? || r.kind.ModelBudget? ==>
          r.state.failure.Some? && r.state.attempts >= Cap(r.state.failure.value.failureClass, cfg.maxErrors))
    && (r.kind.ModelBudget? ==> r.state.failure.value.failureClass in {ModelTransient, ModelTerminal})
  }

  predicate NextKeeps(cfg: Config, s: StepState, n: Next) {
    match n
    case Go(t) => StepInv(cfg, t) && t.modelCalls == s.modelCalls
    case Stop(r) => ResultInv(cfg, r) && r.state.modelCalls == s.modelCalls
  }

  lemma ReplyKeeps(cfg: Config, env: Env, s: StepState, reply: ModelReply)
    requires StepInv(cfg, s)
    ensures NextKeeps(cfg, s, Heard(cfg, env, s, reply))
  {
    match reply
    case ModelError(error) => ErrorKeeps(cfg, s, error);
    case Answer(text, calls, world) =>
      if calls != [] {
        ConversationPaired(s.conversation, env, text, calls, Replies(calls, world), world.order);
        BatchKeeps(cfg, WithCalls(s, text, calls), Handled(env, calls, Replies(calls, world), world.order));
      } else {
        TextKeeps(cfg, s, text);
      }
  }

  /** A step that ends without a verdict keeps the bounds. */
  lemma EndKeeps(cfg: Config, s: StepState, kind: FailureKind)
    requires StepInv(cfg, s) && (kind.NoKind? || kind.RoundBudget?)
    ensures ResultInv(cfg, StepResult(None, kind, s))
  {
    AttemptsBounded(s.counters, cfg.maxErrors, CLASSES);
  }

  predicate SoFar(cfg: Config, k: nat, next: Next) {
    match next
    case Go(s) => StepInv(cfg, s) && s.modelCalls == k
    case Stop(r) => ResultInv(cfg, r) && r.state.modelCalls <= k
  }

  lemma SoFarStep(cfg: Config, env: Env, s: StepState, r: Round)
    requires StepInv(cfg, s)
    ensures SoFar(cfg, s.modelCalls + 1, RoundStep(cfg, env, s, r))
  {
    if r.stop {
      EndKeeps(cfg, s, NoKind);
    } else {
      ReplyKeeps(cfg, env, Called(s), r.reply);
    }
  }

  lemma {:induction false} SoFarHolds(cfg: Config, env: Env, rounds: nat -> Round, k: nat)
    ensures SoFar(cfg, k, Rounds(cfg, env, rounds, k))
  {
    if k == 0 {
      NoAttempts(CLASSES);
    } else {
      SoFarHolds(cfg, env, rounds, k - 1);
      var before := Rounds(cfg, env, rounds, k - 1);
      if before.Go? {
        SoFarStep(cfg, env, before.state, rounds(k - 1));
      }
    }
  }

  /** Whatever the model and the tools do, a step makes at most `max_step_rounds` model calls;
      between clean batches it retries at most the retry limit; its conversation is well
      paired; and it ends without an answer for a named reason, a retry budget only when the
      last failure's attempts have reached it. */
  lemma StepGuarantees(cfg: Config, env: Env, rounds: nat -> Round)
    ensures var r := RunStep(cfg, env, rounds);
            && r.state.modelCalls <= cfg.maxRounds
            && r.state.retries <= RetryLimit(cfg.maxErrors)
            && Paired(r.state.conversation)
            && (r.summary.Some? ==> r.kind.NoKind?)
            && (r.kind.ToolBudget? || r.kind.ModelBudget? ==>
                  && r.state.failure.Some?
                  && r.state.attempts >= Cap(r.state.failure.value.failureClass, cfg.maxErrors))
            && (r.kind.ModelBudget? ==> !ShouldReplan(r.state.failure.value.failureClass))
  {
    SoFarHolds(cfg, env, rounds, cfg.maxRounds);
    var last := Rounds(cfg, env, rounds, cfg.maxRounds);
    if last.Go? {
      EndKeeps(cfg, last.state, RoundBudget);
    }
  }

  /** The same bounds after every single round; and once the retry limit is used up, the next
      failure, of whatever class, ends the step. */
  lemma EveryRound(cfg: Config, env: Env, rounds: nat -> Round, k: nat, f: FailureContext, kind: FailureKind)
    ensures match Rounds(cfg, env, rounds, k)
            case Go(s) =>
              && s.modelCalls == k && s.retries <= RetryLimit(cfg.maxErrors) && Paired(s.conversation)
              && (s.retries == RetryLimit(cfg.maxErrors) ==> Failed(cfg, s, f, kind).Stop?)
            case Stop(r) => r.state.modelCalls <= k && r.state.retries <= RetryLimit(cfg.maxErrors)
  {
    SoFarHolds(cfg, env, rounds, k);
    var next := Rounds(cfg, env, rounds, k);
    if next.Go? {
      AttemptsBounded(next.state.counters, cfg.maxErrors, CLASSES);
      FailedKeeps(cfg, next.state, f, kind);
      var after := Failed(cfg, next.state, f, kind);
      if after.Go? {
        AttemptsBounded(after.state.counters, cfg.maxErrors, CLASSES);
      }
    }
  }

  // ---------- safety of a step's tool batches ----------

  /** Each execution follows an approval of its own call; with `readOnly`, none has side effects. */
  predicate SafeBatch(batch: seq<Event>, readOnly: bool) {
    && Justified(batch)
    && (readOnly ==> forall k | 0 <= k < |batch| && batch[k].Executed? :: batch[k].tool.readOnly)
  }

  predicate SafeBatches(batches: seq<seq<Event>>, readOnly: bool) {
    forall i | 0 <= i < |batches| :: SafeBatch(batches[i], readOnly)
  }

  /** The posture is read-only whenever a call of the round is checked. */
  ghost predicate ReadOnlyRound(r: Round) {
    r.reply.Answer? ==> forall i: nat :: r.reply.world.replies(i).posture.ReadOnly?
  }

  function BatchesOf(next: Next): seq<seq<Event>> {
    match next
    case Go(s) => s.batches
    case Stop(result) => result.state.batches
  }

  lemma RoundSafe(cfg: Config, env: Env, s: StepState, r: Round, readOnly: bool)
    requires SafeBatches(s.batches, readOnly) && (readOnly ==> ReadOnlyRound(r))
    ensures SafeBatches(BatchesOf(RoundStep(cfg, env, s, r)), readOnly)
  {
    RoundBatches(cfg, env, s, r);
    if !r.stop && r.reply.Answer? && r.reply.calls != [] {
      HandledSafe(env, r.reply.calls, Replies(r.reply.calls, r.reply.world), r.reply.world.order, readOnly);
    }
  }

  lemma HandledSafe(env: Env, calls: seq<ToolCall>, replies: seq<Reply>, order: seq<PoolEvent>, readOnly: bool)
    requires |calls| == |replies|
    requires readOnly ==> forall i | 0 <= i < |replies| :: replies[i].posture.ReadOnly?
    ensures SafeBatch(Handled(env, calls, replies, order).events, readOnly)
  {
    HandledGuarantees(env, calls, replies, order);
  }

  /** A round adds at most the batch it handled. */
  lemma RoundBatches(cfg: Config, env: Env, s: StepState, r: Round)
    ensures BatchesOf(RoundStep(cfg, env, s, r)) ==
            if !r.stop && r.reply.Answer? && r.reply.calls != [] then
              var (calls, world) := (r.reply.calls, r.reply.world);
              s.batches + [Handled(env, calls, Replies(calls, world), world.order).events]
            else s.batches
  {
  }

  lemma {:induction false} RoundsSafe(cfg: Config, env: Env, rounds: nat -> Round, k: nat, readOnly: bool)
    requires readOnly ==> forall j: nat :: ReadOnlyRound(rounds(j))
    ensures SafeBatches(BatchesOf(Rounds(cfg, env, rounds, k)), readOnly)
  {
    if k > 0 {
      RoundsSafe(cfg, env, rounds, k - 1, readOnly);
      var before := Rounds(cfg, env, rounds, k - 1);
      if before.Go? {
        RoundSafe(cfg, env, before.state, rounds(k - 1), readOnly);
      }
    }
  }

  /** Whatever the model asks for, no tool of a step runs without leave. */
  lemma StepSafe(cfg: Config, env: Env, rounds: nat -> Round, readOnly: bool)
    requires readOnly ==> forall j: nat :: ReadOnlyRound(rounds(j))
    ensures SafeBatches(RunStep(cfg, env, rounds).state.batches, readOnly)
  {
    RoundsSafe(cfg, env, rounds, cfg.maxRounds, readOnly);
  }

  // ---------- a posture that changes after the check ----------

  /** A tool with side effects ran while the posture was read-only. */
  predicate AnyBreaks(batches: seq<seq<Event>>) {
    exists i :: 0 <= i < |batches| && BreaksReadOnly(batches[i])
  }

  /** In some call of the round the posture became read-only after the check. */
  predicate OvertakenRound(env: Env, r: Round) {
    !r.stop && r.reply.Answer? && r.reply.calls != []
    && AnyOvertaken(env, r.reply.calls, Replies(r.reply.calls, r.reply.world))
  }

  /** The step has not ended before round `k`. */
  predicate Reached(cfg: Config, env: Env, rounds: nat -> Round, k: nat) {
    Rounds(cfg, env, rounds, k).Go?
  }

  lemma BreaksSnoc(batches: seq<seq<Event>>, b: seq<Event>)
    ensures AnyBreaks(batches + [b]) <==> AnyBreaks(batches) || BreaksReadOnly(b)
  {
    var all := batches + [b];
    assert all[|batches|] == b;
    if i :| 0 <= i < |batches| && BreaksReadOnly(batches[i]) {
      assert BreaksReadOnly(all[i]);
    }
  }

  lemma RoundSwitch(cfg: Config, env: Env, s: StepState, r: Round)
    ensures AnyBreaks(BatchesOf(RoundStep(cfg, env, s, r))) <==> AnyBreaks(s.batches) || OvertakenRound(env, r)
  {
    RoundBatches(cfg, env, s, r);
    if !r.stop && r.reply.Answer? && r.reply.calls != [] {
      var (calls, world) := (r.reply.calls, r.reply.world);
      HandledSwitchExact(env, calls, Replies(calls, world), world.order);
      BreaksSnoc(s.batches, Handled(env, calls, Replies(calls, world), world.order).events);
    }
  }

  /** One of the first `k` rounds is reached and overtaken. */
  predicate OvertakenWithin(cfg: Config, env: Env, rounds: nat -> Round, k: nat) {
    k > 0 &&
    (|| OvertakenWithin(cfg, env, rounds, k - 1)
     || (Reached(cfg, env, rounds, k - 1) && OvertakenRound(env, rounds(k - 1))))
  }

  lemma RoundsNext(cfg: Config, env: Env, rounds: nat -> Round, k: nat, before: Next)
    requires k > 0 && Rounds(cfg, env, rounds, k - 1) == before
    ensures Rounds(cfg, env, rounds, k) ==
            if before.Go? then RoundStep(cfg, env, before.state, rounds(k - 1)) else before
  {
  }

  lemma NextSwitch(cfg: Config, env: Env, before: Next, r: Round, next: Next)
    requires next == if before.Go? then RoundStep(cfg, env, before.state, r) else before
    ensures AnyBreaks(BatchesOf(next)) <==>
            AnyBreaks(BatchesOf(before)) || (before.Go? && OvertakenRound(env, r))
  {
    if before.Go? {
      RoundSwitch(cfg, env, before.state, r);
    }
  }

  lemma {:induction false} RoundsSwitch(cfg: Config, env: Env, rounds: nat -> Round, k: nat)
    ensures AnyBreaks(BatchesOf(Rounds(cfg, env, rounds, k))) <==> OvertakenWithin(cfg, env, rounds, k)
  {
    if k > 0 {
      RoundsSwitch(cfg, env, rounds, k - 1);
      var before := Rounds(cfg, env, rounds, k - 1);
      RoundsNext(cfg, env, rounds, k, before);
      NextSwitch(cfg, env, before, rounds(k - 1), Rounds(cfg, env, rounds, k));
    }
  }

  /** A step runs a tool with side effects under a read-only posture if and only if in one of the
      rounds it reaches a permitted call is overtaken. */
  lemma StepSwitchExact(cfg: Config, env: Env, rounds: nat -> Round)
    ensures AnyBreaks(RunStep(cfg, env, rounds).state.batches) <==> OvertakenWithin(cfg, env, rounds, cfg.maxRounds)
  {
    RoundsSwitch(cfg, env, rounds, cfg.maxRounds);
  }

  /** In no call of the round does the posture change between check and run. */
  ghost predicate SteadyRound(r: Round) {
    r.reply.Answer? ==> forall i: nat :: r.reply.world.replies(i).later == r.reply.world.replies(i).posture
  }

  lemma SteadyRoundHolds(env: Env, r: Round)
    requires SteadyRound(r)
    ensures !OvertakenRound(env, r)
  {
    if r.reply.Answer? {
      SteadyNotOvertaken(env, r.reply.calls, Replies(r.reply.calls, r.reply.world));
    }
  }

  lemma {:induction false} SteadyNeverOvertaken(cfg: Config, env: Env, rounds: nat -> Round, k: nat)
    requires forall j: nat :: SteadyRound(rounds(j))
    ensures !OvertakenWithin(cfg, env, rounds, k)
  {
    if k > 0 {
      SteadyNeverOvertaken(cfg, env, rounds, k - 1);
      SteadyRoundHolds(env, rounds(k - 1));
    }
  }
}
