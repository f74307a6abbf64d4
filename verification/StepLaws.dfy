/** What a step leaves behind, read off the rounds it reached: its conversation, its answer, the
    failures held against it and the budget that ended it. */
module StepLaws {
  import opened Text
  import opened Recovery
  import opened ToolBatch
  import opened ParallelBatch
  import opened StepLoop

  /** Settings are taken as given, but with one round at least. */
  lemma ConfigExact(maxErrors: int, maxRounds: int, unified: bool)
    ensures var cfg := MakeConfig(maxErrors, maxRounds, unified);
            && cfg.maxErrors == maxErrors && cfg.unified == unified
            && cfg.maxRounds >= 1 && (maxRounds >= 1 ==> cfg.maxRounds == maxRounds)
            && (maxRounds < 1 ==> cfg.maxRounds == 1)
  {
  }

  // ---------- the conversation ----------

  /** What one round adds to the conversation. */
  function Said(env: Env, r: Round): seq<Message> {
    if r.stop then []
    else
      match r.reply
      case ModelError(error) => if error == "" then [] else [Assistant("", [])]
      case Answer(text, calls, world) =>
        if calls != [] then
          [Assistant(text, calls)] + Handled(env, calls, Replies(calls, world), world.order).messages
        else if Strip(text) == "" then []
        else [Assistant(text, [])]
  }

  function SaidIn(cfg: Config, env: Env, rounds: nat -> Round, k: nat): seq<Message> {
    if k == 0 then []
    else
      SaidIn(cfg, env, rounds, k - 1)
      + if Reached(cfg, env, rounds, k - 1) then Said(env, rounds(k - 1)) else []
  }

  // ---------- failures ----------

  /** A failure that counts, of the model or of a tool. */
  datatype Fault = Fault(byModel: bool, context: FailureContext)

  /** The last error text of the model that was not blank. */
  function ErrorIn(cfg: Config, env: Env, rounds: nat -> Round, k: nat): string {
    if k == 0 then ""
    else
      var (before, r) := (ErrorIn(cfg, env, rounds, k - 1), rounds(k - 1));
      if Reached(cfg, env, rounds, k - 1) then ErrorAfter(before, r) else before
  }

  function ErrorAfter(before: string, r: Round): string {
    if !r.stop && r.reply.ModelError? && Strip(r.reply.error) != "" then Strip(r.reply.error) else before
  }

  predicate CallsTools(r: Round) {
    !r.stop && r.reply.Answer? && r.reply.calls != []
  }

  function BatchOf(env: Env, r: Round): Batch
    requires CallsTools(r)
  {
    Handled(env, r.reply.calls, Replies(r.reply.calls, r.reply.world), r.reply.world.order)
  }

  /** The failure of a round, if it has one: the model's, classified by its last error text, or the
      first of its batch. */
  function FaultOf(env: Env, r: Round, error: string): Option<Fault> {
    if !r.stop && r.reply.ModelError? then Some(Fault(true, ClassifyModelFailure(error)))
    else if CallsTools(r) && BatchOf(env, r).failure.Some? then Some(Fault(false, BatchOf(env, r).failure.value))
    else None
  }

  /** The failures since the last batch without one. */
  function Faults(cfg: Config, env: Env, rounds: nat -> Round, k: nat): seq<Fault> {
    if k == 0 then []
    else
      var before := Faults(cfg, env, rounds, k - 1);
      if Reached(cfg, env, rounds, k - 1) then
        FaultsAfter(env, before, rounds(k - 1), ErrorIn(cfg, env, rounds, k))
      else before
  }

  function FaultsAfter(env: Env, before: seq<Fault>, r: Round, error: string): seq<Fault> {
    if FaultOf(env, r, error).Some? then before + [FaultOf(env, r, error).value]
    else if CallsTools(r) then []
    else before
  }

  function Count(faults: seq<Fault>, c: FailureClass): nat {
    if faults == [] then 0
    else Count(faults[..|faults| - 1], c) + if faults[|faults| - 1].context.failureClass == c then 1 else 0
  }

  /** The last failure has used up the budget of its class. */
  predicate Spent(cfg: Config, faults: seq<Fault>) {
    faults != [] &&
    var c := faults[|faults| - 1].context.failureClass;
    Count(faults, c) >= Cap(c, cfg.maxErrors)
  }

  // ---------- what a state shows ----------

  /** The counters are the counts, and failure and attempts are those of the last failure. */
  predicate ShowsFaults(s: StepState, faults: seq<Fault>) {
    && (forall c :: Attempts(s.counters, c) == Count(faults, c))
    && (if faults == [] then s.failure.None? && s.attempts == 0
        else
          var last := faults[|faults| - 1];
          s.failure == Some(last.context) && s.attempts == Count(faults, last.context.failureClass))
  }

  predicate Shows(s: StepState, said: seq<Message>, faults: seq<Fault>, error: string) {
    s.conversation == said && ShowsFaults(s, faults) && s.lastError == error
  }

  /** How a round that ends the step ends it. */
  predicate EndsBy(cfg: Config, kind: FailureKind, faults: seq<Fault>) {
    && (kind.ModelBudget? <==> Spent(cfg, faults) && faults[|faults| - 1].byModel)
    && (kind.ToolBudget? <==> Spent(cfg, faults) && !faults[|faults| - 1].byModel)
    && !kind.RoundBudget?
  }

  predicate NextShows(cfg: Config, n: Next, said: seq<Message>, faults: seq<Fault>, error: string) {
    match n
    case Go(s) => Shows(s, said, faults, error) && !Spent(cfg, faults)
    case Stop(r) => Shows(r.state, said, faults, error) && EndsBy(cfg, r.kind, faults)
  }

  lemma CountSnoc(faults: seq<Fault>, f: Fault, c: FailureClass)
    ensures Count(faults + [f], c) == Count(faults, c) + if f.context.failureClass == c then 1 else 0
  {
    assert (faults + [f])[..|faults|] == faults;
  }

  lemma FailedShows(cfg: Config, s: StepState, faults: seq<Fault>, f: Fault)
    requires forall c :: Attempts(s.counters, c) == Count(faults, c)
    ensures var kind := if f.byModel then ModelBudget else ToolBudget;
            NextShows(cfg, Failed(cfg, s, f.context, kind), s.conversation, faults + [f], s.lastError)
  {
    forall c: FailureClass
      ensures Attempts(Counted(s.counters, f.context.failureClass), c) == Count(faults + [f], c)
    {
      CountSnoc(faults, f, c);
    }
  }

  lemma ErrorShows(cfg: Config, env: Env, s: StepState, r: Round, said: seq<Message>, faults: seq<Fault>, error: string)
    requires Shows(s, said, faults, error) && !r.stop && r.reply.ModelError?
    ensures var e := ErrorAfter(error, r);
            NextShows(cfg, AfterModelError(cfg, s, r.reply.error), said + Said(env, r),
                      FaultsAfter(env, faults, r, e), e)
  {
    var e := ErrorAfter(error, r);
    Unit(said);
    var t := s.(lastError := e, conversation := said + Said(env, r));
    FailedShows(cfg, t, faults, Fault(true, ClassifyModelFailure(e)));
  }

  lemma BatchShows(cfg: Config, env: Env, s: StepState, r: Round, said: seq<Message>, faults: seq<Fault>, error: string)
    requires Shows(s, said, faults, error) && CallsTools(r)
    ensures var (text, calls, world) := (r.reply.text, r.reply.calls, r.reply.world);
            NextShows(cfg, RoundBatch(cfg, env, s, text, calls, world), said + Said(env, r),
                      FaultsAfter(env, faults, r, error), error)
  {
    var (text, calls, world) := (r.reply.text, r.reply.calls, r.reply.world);
    var b := BatchOf(env, r);
    HandledGuarantees(env, calls, Replies(calls, world), world.order);
    Assoc(said, [Assistant(text, calls)], b.messages);
    var t := WithCalls(s, text, calls);
    var u := t.(conversation := t.conversation + b.messages, batches := t.batches + [b.events]);
    if b.failure.Some? {
      FailedShows(cfg, u, faults, Fault(false, b.failure.value));
    }
  }

  lemma TextShows(cfg: Config, env: Env, s: StepState, r: Round, said: seq<Message>, faults: seq<Fault>, error: string)
    requires Shows(s, said, faults, error) && !Spent(cfg, faults)
    requires !r.stop && r.reply.Answer? && r.reply.calls == []
    ensures NextShows(cfg, AfterText(s, r.reply.text), said + Said(env, r), FaultsAfter(env, faults, r, error), error)
  {
    Unit(said);
  }

  lemma CallKeeps(s: StepState, said: seq<Message>, faults: seq<Fault>, error: string)
    requires Shows(s, said, faults, error)
    ensures Shows(Called(s), said, faults, error)
  {
  }

  lemma RoundShows(cfg: Config, env: Env, s: StepState, r: Round, said: seq<Message>, faults: seq<Fault>, error: string)
    requires Shows(s, said, faults, error) && !Spent(cfg, faults)
    ensures var e := ErrorAfter(error, r);
            NextShows(cfg, RoundStep(cfg, env, s, r), said + Said(env, r), FaultsAfter(env, faults, r, e), e)
  {
    CallKeeps(s, said, faults, error);
    Unit(said);
    if r.stop {
    } else if r.reply.ModelError? {
      ErrorShows(cfg, env, Called(s), r, said, faults, error);
    } else if r.reply.calls != [] {
      BatchShows(cfg, env, Called(s), r, said, faults, error);
    } else {
      TextShows(cfg, env, Called(s), r, said, faults, error);
    }
  }

  lemma AllNext(cfg: Config, env: Env, rounds: nat -> Round, k: nat, before: Next)
    requires k > 0 && Rounds(cfg, env, rounds, k - 1) == before
    ensures SaidIn(cfg, env, rounds, k)
            == SaidIn(cfg, env, rounds, k - 1) + if before.Go? then Said(env, rounds(k - 1)) else []
    ensures ErrorIn(cfg, env, rounds, k)
            == if before.Go? then ErrorAfter(ErrorIn(cfg, env, rounds, k - 1), rounds(k - 1))
               else ErrorIn(cfg, env, rounds, k - 1)
    ensures Faults(cfg, env, rounds, k)
            == if before.Go? then
                 FaultsAfter(env, Faults(cfg, env, rounds, k - 1), rounds(k - 1), ErrorIn(cfg, env, rounds, k))
               else Faults(cfg, env, rounds, k - 1)
  {
  }

  /** After any number of rounds, whether the step goes on or has ended: the conversation is what the
      reached rounds said, in order; counters, failure and attempts are those of the failures since
      the last clean batch; it goes on only with a budget left, and ends for a spent budget
      exactly when the last failure has spent it, the model's or a tool's as it was. */
  lemma {:induction false} StepExact(cfg: Config, env: Env, rounds: nat -> Round, k: nat)
    ensures NextShows(cfg, Rounds(cfg, env, rounds, k), SaidIn(cfg, env, rounds, k), Faults(cfg, env, rounds, k),
                      ErrorIn(cfg, env, rounds, k))
  {
    if k == 0 {
      NothingSaid(cfg, env, rounds);
    } else {
      var before := Rounds(cfg, env, rounds, k - 1);
      StepExact(cfg, env, rounds, k - 1);
      RoundsNext(cfg, env, rounds, k, before);
      AllNext(cfg, env, rounds, k, before);
      NextExact(cfg, env, before, rounds(k - 1), Rounds(cfg, env, rounds, k), SaidIn(cfg, env, rounds, k - 1),
                Faults(cfg, env, rounds, k - 1), ErrorIn(cfg, env, rounds, k - 1));
      Unit(SaidIn(cfg, env, rounds, k - 1));
    }
  }

  lemma NothingSaid(cfg: Config, env: Env, rounds: nat -> Round)
    ensures NextShows(cfg, Rounds(cfg, env, rounds, 0), SaidIn(cfg, env, rounds, 0), Faults(cfg, env, rounds, 0),
                      ErrorIn(cfg, env, rounds, 0))
  {
    assert Shows(FRESH, [], [], "");
  }

  lemma NextExact(cfg: Config, env: Env, before: Next, r: Round, next: Next, said: seq<Message>, faults: seq<Fault>,
                  error: string)
    requires next == if before.Go? then RoundStep(cfg, env, before.state, r) else before
    requires NextShows(cfg, before, said, faults, error)
    ensures var e := ErrorAfter(error, r);
            if before.Go? then NextShows(cfg, next, said + Said(env, r), FaultsAfter(env, faults, r, e), e)
            else NextShows(cfg, next, said, faults, error)
  {
    if before.Go? {
      RoundShows(cfg, env, before.state, r, said, faults, error);
    }
  }

  // ---------- the answer ----------

  /** A reply without tool calls ends the step if it has a text, or if anything was said before. */
  predicate Concludes(said: seq<Message>, r: Round) {
    !r.stop && r.reply.Answer? && r.reply.calls == [] && (Strip(r.reply.text) != "" || said != [])
  }

  function Conclusion(said: seq<Message>, r: Round): string
    requires Concludes(said, r)
  {
    if Strip(r.reply.text) != "" then Strip(r.reply.text) else Observations(said)
  }

  /** The observation is that of the last tool message, cut to 240 characters. */
  lemma {:induction false} ObservationsExact(said: seq<Message>, i: nat)
    requires i < |said| && said[i].Tool? && forall j | i < j < |said| :: !said[j].Tool?
    ensures Observations(said) == "Step completed after tool execution. Latest observation: "
                                  + (if |said[i].content| > 240 then said[i].content[..240] else said[i].content)
  {
    if i < |said| - 1 {
      ObservationsExact(said[..|said| - 1], i);
    }
  }

  lemma {:induction false} NothingObserved(said: seq<Message>)
    requires forall j | 0 <= j < |said| :: !said[j].Tool?
    ensures Observations(said) == "Step completed."
  {
    if said != [] {
      NothingObserved(said[..|said| - 1]);
    }
  }

  function SummaryOf(n: Next): Option<string> {
    if n.Stop? then n.result.summary else None
  }

  lemma RoundAnswer(cfg: Config, env: Env, s: StepState, r: Round)
    ensures SummaryOf(RoundStep(cfg, env, s, r))
            == if Concludes(s.conversation, r) then Some(Conclusion(s.conversation, r)) else None
  {
  }

  lemma AnswerGiven(cfg: Config, env: Env, rounds: nat -> Round, j: nat, said: seq<Message>)
    requires said == SaidIn(cfg, env, rounds, j) && Reached(cfg, env, rounds, j)
    ensures SummaryOf(Rounds(cfg, env, rounds, j + 1))
            == if Concludes(said, rounds(j)) then Some(Conclusion(said, rounds(j))) else None
  {
    var before := Rounds(cfg, env, rounds, j);
    StepExact(cfg, env, rounds, j);
    RoundsNext(cfg, env, rounds, j + 1, before);
    RoundAnswer(cfg, env, before.state, rounds(j));
  }

  predicate Answers(cfg: Config, env: Env, rounds: nat -> Round, j: nat) {
    Reached(cfg, env, rounds, j) && Concludes(SaidIn(cfg, env, rounds, j), rounds(j))
  }

  lemma SameSummary(cfg: Config, env: Env, before: Next, r: Round, next: Next)
    requires next == if before.Go? then RoundStep(cfg, env, before.state, r) else before
    ensures before.Stop? ==> SummaryOf(next) == SummaryOf(before)
  {
  }

  lemma NotAnswered(cfg: Config, env: Env, rounds: nat -> Round, j: nat, before: Next, next: Next)
    requires before == Rounds(cfg, env, rounds, j) && next == Rounds(cfg, env, rounds, j + 1)
    requires SummaryOf(before).None? && !Answers(cfg, env, rounds, j)
    ensures SummaryOf(next).None?
  {
    RoundsNext(cfg, env, rounds, j + 1, before);
    SameSummary(cfg, env, before, rounds(j), next);
    if before.Go? {
      AnswerGiven(cfg, env, rounds, j, SaidIn(cfg, env, rounds, j));
    }
  }

  lemma Unanswered(cfg: Config, env: Env, rounds: nat -> Round, k: nat)
    requires forall j: nat | j < k :: !Answers(cfg, env, rounds, j)
    ensures SummaryOf(Rounds(cfg, env, rounds, k)).None?
  {
    var none := (n: nat) => SummaryOf(Rounds(cfg, env, rounds, n)).None?;
    forall j: nat | j < k && none(j) ensures none(j + 1) {
      NotAnswered(cfg, env, rounds, j, Rounds(cfg, env, rounds, j), Rounds(cfg, env, rounds, j + 1));
    }
    Upward(none, k);
  }

  lemma AnswerStays(cfg: Config, env: Env, rounds: nat -> Round, j: nat)
    requires j < cfg.maxRounds && Answers(cfg, env, rounds, j)
    ensures RunStep(cfg, env, rounds).summary == Some(Conclusion(SaidIn(cfg, env, rounds, j), rounds(j)))
  {
    AnswerGiven(cfg, env, rounds, j, SaidIn(cfg, env, rounds, j));
    StoppedStays(cfg, env, rounds, j + 1, cfg.maxRounds, Rounds(cfg, env, rounds, j + 1).result);
  }

  /** A step has an answer if and only if it reaches a reply that concludes it; and the answer is the
      stripped text of that reply or, when it is blank, the observation. */
  lemma StepAnswer(cfg: Config, env: Env, rounds: nat -> Round)
    ensures RunStep(cfg, env, rounds).summary.Some? <==>
            exists j: nat :: j < cfg.maxRounds && Answers(cfg, env, rounds, j)
    ensures forall j: nat | j < cfg.maxRounds && Answers(cfg, env, rounds, j) ::
              RunStep(cfg, env, rounds).summary == Some(Conclusion(SaidIn(cfg, env, rounds, j), rounds(j)))
  {
    forall j: nat | j < cfg.maxRounds && Answers(cfg, env, rounds, j)
      ensures RunStep(cfg, env, rounds).summary == Some(Conclusion(SaidIn(cfg, env, rounds, j), rounds(j)))
    {
      AnswerStays(cfg, env, rounds, j);
    }
    if !exists j: nat :: j < cfg.maxRounds && Answers(cfg, env, rounds, j) {
      Unanswered(cfg, env, rounds, cfg.maxRounds);
    }
  }
}
