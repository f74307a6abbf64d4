/** Failure classes, their retry budgets and the counters that enforce them. */
module Recovery {
  import opened Text

  datatype FailureClass =
    | ModelTransient | ModelTerminal | ToolTimeout | ToolDenied | ToolBlocked | ToolError | Unknown

  datatype FailureContext = FailureContext(failureClass: FailureClass, detail: string)

  datatype ToolStatus = Success | Timeout | Denied | Error | OtherStatus

  datatype ToolResult = ToolResult(status: ToolStatus, summary: string, output: string, error: Option<string>)

  function ErrorResult(summary: string, error: string): ToolResult {
    ToolResult(Error, summary, "", Some(error))
  }

  function DeniedResult(summary: string, output: string): ToolResult {
    ToolResult(Denied, summary, output, Some("Action denied by user."))
  }

  // ---------- classification ----------

  predicate Contains(text: string, phrase: string) {
    exists i | 0 <= i <= |text| :: phrase <= text[i..]
  }

  predicate ContainsAny(text: string, phrases: seq<string>) {
    exists i | 0 <= i < |phrases| :: Contains(text, phrases[i])
  }

  const TERMINAL := ["unauthorized", "forbidden", "authentication", "api key", "invalid request", "malformed",
                     "unsupported", "context window", "quota exceeded", "permission denied"]

  /** Without a terminal phrase a model failure counts as transient, whether or not one of
      the transient phrases occurs. */
  function ClassifyModelFailure(error: string): FailureContext {
    var detail := Strip(error);
    if ContainsAny(Lower(detail), TERMINAL) then FailureContext(ModelTerminal, detail)
    else FailureContext(ModelTransient, if detail != "" then detail else "Unknown model error.")
  }

  function Or(a: string, b: string): string {
    if a != "" then a else b
  }

  function ErrorText(r: ToolResult): string {
    if r.error.Some? then r.error.value else ""
  }

  const BLOCKED_PREFIX := "Blocked tool"

  function ClassifyToolFailure(r: ToolResult): Option<FailureContext> {
    match r.status
    case Success => None
    case Timeout => Some(FailureContext(ToolTimeout, Or(ErrorText(r), Or(r.summary, "Tool timed out."))))
    case Denied => Some(FailureContext(ToolDenied, Or(ErrorText(r), Or(r.summary, "Tool execution denied."))))
    case Error =>
      var summary, error := Strip(r.summary), Strip(ErrorText(r));
      var blocked := BLOCKED_PREFIX <= summary || Contains(Lower(summary + "\n" + error), "violated a safety rule");
      Some(FailureContext(if blocked then ToolBlocked else ToolError, Or(error, Or(summary, "Tool execution failed."))))
    case OtherStatus => Some(FailureContext(Unknown, Or(ErrorText(r), Or(r.summary, "Unknown tool failure."))))
  }

  predicate ShouldReplan(c: FailureClass) {
    c.ToolDenied? || c.ToolBlocked? || c.ToolError?
  }

  // ---------- budgets ----------

  function Budget(c: FailureClass): int {
    match c
    case ModelTransient => 3
    case ModelTerminal => 1
    case ToolTimeout => 2
    case ToolDenied => 1
    case ToolBlocked => 1
    case ToolError => 2
    case Unknown => 1
  }

  /** The effective budget under the loop's limit on consecutive errors. */
  function Cap(c: FailureClass, maxErrors: int): int {
    if Budget(c) < maxErrors then Budget(c) else maxErrors
  }

  /** The smaller of the two. */
  lemma CapExact(c: FailureClass, maxErrors: int)
    ensures Cap(c, maxErrors) <= Budget(c) && Cap(c, maxErrors) <= maxErrors
    ensures Cap(c, maxErrors) == Budget(c) || Cap(c, maxErrors) == maxErrors
  {
  }

  type Counters = map<FailureClass, nat>

  function Attempts(counters: Counters, c: FailureClass): nat {
    if c in counters then counters[c] else 0
  }

  function Counted(counters: Counters, c: FailureClass): Counters {
    counters[c := Attempts(counters, c) + 1]
  }

  predicate Exhausts(counters: Counters, c: FailureClass, maxErrors: int) {
    Attempts(counters, c) + 1 >= Cap(c, maxErrors)
  }

  /** The counters dictionary of one step, updated in place. */
  class FailureCounters {
    var counters: Counters

    constructor ()
      ensures counters == map[]
    {
      counters := map[];
    }

    /** `update_failure_counters` and the budget comparison that follows it. */
    method Update(c: FailureClass, maxErrors: int) returns (attempt: nat, exhausted: bool)
      modifies this
      ensures counters == Counted(old(counters), c)
      ensures attempt == Attempts(counters, c)
      ensures exhausted <==> Exhausts(old(counters), c, maxErrors)
    {
      attempt := (if c in counters then counters[c] else 0) + 1;
      counters := counters[c := attempt];
      var retryBudget := if Budget(c) < maxErrors then Budget(c) else maxErrors;
      exhausted := attempt >= retryBudget;
    }

    method Clear()
      modifies this
      ensures counters == map[]
    {
      counters := map[];
    }
  }

  // ---------- how many failures can be retried ----------

  const CLASSES := [ModelTransient, ModelTerminal, ToolTimeout, ToolDenied, ToolBlocked, ToolError, Unknown]

  /** Failures of one class that can be retried before its budget is gone. */
  function Spare(c: FailureClass, maxErrors: int): nat {
    if Cap(c, maxErrors) > 1 then Cap(c, maxErrors) - 1 else 0
  }

  function TotalSpare(maxErrors: int, classes: seq<FailureClass>): nat {
    if classes == [] then 0 else Spare(classes[0], maxErrors) + TotalSpare(maxErrors, classes[1..])
  }

  function TotalAttempts(counters: Counters, classes: seq<FailureClass>): nat {
    if classes == [] then 0 else Attempts(counters, classes[0]) + TotalAttempts(counters, classes[1..])
  }

  /** The most failures that can be retried between two clean tool batches. */
  function RetryLimit(maxErrors: int): nat {
    TotalSpare(maxErrors, CLASSES)
  }

  predicate WithinBudgets(counters: Counters, maxErrors: int) {
    forall c :: Attempts(counters, c) <= Spare(c, maxErrors)
  }

  lemma {:induction false} AttemptsBounded(counters: Counters, maxErrors: int, classes: seq<FailureClass>)
    requires WithinBudgets(counters, maxErrors)
    ensures TotalAttempts(counters, classes) <= TotalSpare(maxErrors, classes)
  {
    if classes != [] {
      AttemptsBounded(counters, maxErrors, classes[1..]);
    }
  }

  lemma RetryKeepsBudgets(counters: Counters, c: FailureClass, maxErrors: int)
    requires WithinBudgets(counters, maxErrors) && !Exhausts(counters, c, maxErrors)
    ensures WithinBudgets(Counted(counters, c), maxErrors)
    ensures TotalAttempts(Counted(counters, c), CLASSES) == TotalAttempts(counters, CLASSES) + 1
  {
    ClassesDistinct(c);
    CountOnce(counters, c, CLASSES);
  }

  lemma ClassesDistinct(c: FailureClass)
    ensures multiset(CLASSES)[c] == 1
  {
  }

  lemma {:induction false} CountOnce(counters: Counters, c: FailureClass, classes: seq<FailureClass>)
    requires multiset(classes)[c] <= 1
    ensures TotalAttempts(Counted(counters, c), classes) == TotalAttempts(counters, classes) + multiset(classes)[c]
  {
    if classes != [] {
      assert classes == [classes[0]] + classes[1..];
      CountOnce(counters, c, classes[1..]);
    }
  }

  /** The state of the counters after a sequence of failures with no clean batch in between,
      or `None` once some failure exhausted its budget. */
  function Retried(failures: seq<FailureClass>, maxErrors: int): Option<Counters> {
    if failures == [] then Some(map[])
    else
      var before, c := Retried(failures[..|failures| - 1], maxErrors), failures[|failures| - 1];
      if before.None? || Exhausts(before.value, c, maxErrors) then None else Some(Counted(before.value, c))
  }

  lemma {:induction false} RetriedWithinBudgets(failures: seq<FailureClass>, maxErrors: int)
    requires Retried(failures, maxErrors).Some?
    ensures WithinBudgets(Retried(failures, maxErrors).value, maxErrors)
    ensures TotalAttempts(Retried(failures, maxErrors).value, CLASSES) == |failures|
  {
    if failures != [] {
      var front := failures[..|failures| - 1];
      RetriedWithinBudgets(front, maxErrors);
      RetryKeepsBudgets(Retried(front, maxErrors).value, failures[|failures| - 1], maxErrors);
    } else {
      NoAttempts(CLASSES);
    }
  }

  lemma {:induction false} NoAttempts(classes: seq<FailureClass>)
    ensures TotalAttempts(map[], classes) == 0
  {
    if classes != [] {
      NoAttempts(classes[1..]);
    }
  }

  /** In every order of failure classes at most `RetryLimit` failures are retried; so among the
      first `RetryLimit + 1` failures one exhausts its budget. With the default limit of five
      consecutive errors that is four retries. */
  lemma RetriesBounded(failures: seq<FailureClass>, maxErrors: int)
    ensures Retried(failures, maxErrors).Some? ==> |failures| <= RetryLimit(maxErrors)
    ensures RetryLimit(5) == 4
  {
    if Retried(failures, maxErrors).Some? {
      RetriedWithinBudgets(failures, maxErrors);
      AttemptsBounded(Retried(failures, maxErrors).value, maxErrors, CLASSES);
    }
    DefaultLimit();
  }

  lemma RetrySnoc(front: seq<FailureClass>, c: FailureClass, maxErrors: int, before: Counters)
    requires Retried(front, maxErrors) == Some(before) && !Exhausts(before, c, maxErrors)
    ensures Retried(front + [c], maxErrors) == Some(Counted(before, c))
  {
    assert (front + [c])[..|front|] == front;
  }

  /** The bound is reached: four failures are retried under the default settings. */
  lemma FourRetriesHappen()
    ensures Retried([ModelTransient, ToolError, ModelTransient, ToolTimeout], 5).Some?
  {
    var one := Counted(map[], ModelTransient);
    RetrySnoc([], ModelTransient, 5, map[]);
    RetrySnoc([] + [ModelTransient], ToolError, 5, one);
    var two := Counted(one, ToolError);
    RetrySnoc([] + [ModelTransient] + [ToolError], ModelTransient, 5, two);
    var three := Counted(two, ModelTransient);
    RetrySnoc([] + [ModelTransient] + [ToolError] + [ModelTransient], ToolTimeout, 5, three);
    assert [] + [ModelTransient] + [ToolError] + [ModelTransient] + [ToolTimeout]
        == [ModelTransient, ToolError, ModelTransient, ToolTimeout];
  }

  lemma DefaultLimit()
    ensures RetryLimit(5) == 4
  {
    assert CLASSES[1..] == [ModelTerminal, ToolTimeout, ToolDenied, ToolBlocked, ToolError, Unknown];
    assert CLASSES[1..][1..] == [ToolTimeout, ToolDenied, ToolBlocked, ToolError, Unknown];
    assert CLASSES[1..][1..][1..] == [ToolDenied, ToolBlocked, ToolError, Unknown];
    assert TotalSpare(5, [Unknown]) == 0;
    assert [ToolError, Unknown][1..] == [Unknown] && TotalSpare(5, [ToolError, Unknown]) == 1;
    assert [ToolBlocked, ToolError, Unknown][1..] == [ToolError, Unknown];
    assert [ToolDenied, ToolBlocked, ToolError, Unknown][1..] == [ToolBlocked, ToolError, Unknown];
    assert TotalSpare(5, [ToolBlocked, ToolError, Unknown]) == 1;
    assert TotalSpare(5, [ToolDenied, ToolBlocked, ToolError, Unknown]) == 1;
  }

  /** Every refused call is classified as what it is. */
  lemma RefusalsClassified(name: string, reason: string, who: string, output: string)
    ensures ClassifyToolFailure(DeniedResult(who, output)).value.failureClass == ToolDenied
    ensures ClassifyToolFailure(ErrorResult("Blocked tool '" + name + "'", reason)).value.failureClass == ToolBlocked
  {
    var s := "Blocked tool '" + name + "'";
    assert s[0] == 'B' && s[|s| - 1] == '\'';
    assert Strip(s) == s;
  }

  // ---------- what a class says ----------

  lemma ContainsExact(text: string, phrase: string)
    ensures Contains(text, phrase) <==> exists a, b :: text == a + phrase + b
  {
    if i :| 0 <= i <= |text| && phrase <= text[i..] {
      assert text == text[..i] + phrase + text[i + |phrase|..];
    }
    if a, b :| text == a + phrase + b {
      assert text[|a|..] == phrase + b;
      assert phrase <= text[|a|..];
    }
  }

  /** A result's class, exactly: of an error, blocked if the summary or the text says so. Its detail
      is the error text, without that the summary, without either a text of its own. */
  lemma ToolFailureExact(r: ToolResult)
    ensures var f := ClassifyToolFailure(r);
            && (f.None? <==> r.status.Success?)
            && (f.Some? ==>
                  && (f.value.failureClass.ToolTimeout? <==> r.status.Timeout?)
                  && (f.value.failureClass.ToolDenied? <==> r.status.Denied?)
                  && (f.value.failureClass.Unknown? <==> r.status.OtherStatus?)
                  && (f.value.failureClass.ToolBlocked? || f.value.failureClass.ToolError? <==> r.status.Error?)
                  && (f.value.failureClass.ToolBlocked? <==>
                        r.status.Error? && (BLOCKED_PREFIX <= Strip(r.summary) || SaysUnsafe(r)))
                  && DetailFits(r, f.value.detail))
  {
  }

  predicate SaysUnsafe(r: ToolResult) {
    Contains(Lower(Strip(r.summary) + "\n" + Strip(ErrorText(r))), "violated a safety rule")
  }

  predicate DetailFits(r: ToolResult, detail: string) {
    var error := if r.status.Error? then Strip(ErrorText(r)) else ErrorText(r);
    var summary := if r.status.Error? then Strip(r.summary) else r.summary;
    && detail != ""
    && (error != "" ==> detail == error)
    && (error == "" && summary != "" ==> detail == summary)
  }

  /** A model failure is terminal exactly when its text has one of the phrases in any case; its
      detail is the stripped text, if there is any. */
  lemma ModelFailureExact(error: string)
    ensures var f := ClassifyModelFailure(error);
            && (f.failureClass.ModelTerminal? || f.failureClass.ModelTransient?)
            && (f.failureClass.ModelTerminal? <==>
                  exists i :: 0 <= i < |TERMINAL| && Contains(Lower(Strip(error)), TERMINAL[i]))
            && (Strip(error) != "" ==> f.detail == Strip(error)) && f.detail != ""
  {
    var f := ClassifyModelFailure(error);
    if i :| 0 <= i < |TERMINAL| && Contains(Lower(Strip(error)), TERMINAL[i]) {
      assert f.failureClass.ModelTerminal?;
    }
    if f.failureClass.ModelTerminal? && Strip(error) == "" {
      assert Lower("") == "";
      NothingContained();
    }
  }

  lemma NothingContained()
    ensures !ContainsAny("", TERMINAL)
  {
    forall i | 0 <= i < |TERMINAL| ensures !Contains("", TERMINAL[i]) {
      assert TERMINAL[i] != "";
    }
  }
}
