/** Task plans: numbered steps, their in-place updates and the parsing of planner replies. */
module Planner {
  import opened Text

  datatype StepStatus = Pending | InProgress | Completed | Failed | Skipped

  datatype PlanStep = PlanStep(index: int, description: string, status: StepStatus, result: Option<string>)

  datatype PlanStatus = Planning | Executing | Done | PlanFailed | Stopped | TimedOut

  function NewStep(index: int, description: string): PlanStep {
    PlanStep(index, description, Pending, None)
  }

  // ---------- operations on the steps ----------

  /** The position of the first pending step. */
  function NextStep(steps: seq<PlanStep>): Option<nat> {
    if steps == [] then None
    else if steps[0].status.Pending? then Some(0)
    else
      var rest := NextStep(steps[1..]);
      if rest.Some? then Some(rest.value + 1) else None
  }

  /** `get_step`: the position of the first step with an index. */
  function Position(steps: seq<PlanStep>, index: int): Option<nat> {
    if steps == [] then None
    else if steps[0].index == index then Some(0)
    else
      var rest := Position(steps[1..], index);
      if rest.Some? then Some(rest.value + 1) else None
  }

  function WithStatus(s: PlanStep, status: StepStatus, result: Option<string>): PlanStep {
    s.(status := status, result := if result.Some? then result else s.result)
  }

  /** `update_step`; `None` is the KeyError for an unknown index. */
  function UpdateStep(steps: seq<PlanStep>, index: int, status: StepStatus,
                      result: Option<string>): Option<seq<PlanStep>>
  {
    match Position(steps, index)
    case None => None
    case Some(i) => if i < |steps| then Some(steps[i := WithStatus(steps[i], status, result)]) else None
  }

  function Renumbered(steps: seq<PlanStep>): seq<PlanStep> {
    seq(|steps|, i requires 0 <= i < |steps| => steps[i].(index := i + 1))
  }

  /** Where `add_step` inserts: after the step with the given index, else at the end. */
  function InsertionPoint(steps: seq<PlanStep>, after: Option<int>): (at: nat)
    ensures at <= |steps|
  {
    if after.None? then |steps|
    else
      match Position(steps, after.value)
      case None => |steps|
      case Some(i) => if i < |steps| then i + 1 else |steps|
  }

  function InsertAt(steps: seq<PlanStep>, description: string, at: nat): seq<PlanStep>
    requires at <= |steps|
  {
    Renumbered(steps[..at] + [NewStep(0, description)] + steps[at..])
  }

  function AddStep(steps: seq<PlanStep>, description: string, after: Option<int>): seq<PlanStep> {
    InsertAt(steps, description, InsertionPoint(steps, after))
  }

  function Without(steps: seq<PlanStep>, index: int): seq<PlanStep> {
    if steps == [] then []
    else if steps[0].index == index then Without(steps[1..], index)
    else [steps[0]] + Without(steps[1..], index)
  }

  function RemoveStep(steps: seq<PlanStep>, index: int): seq<PlanStep> {
    Renumbered(Without(steps, index))
  }

  predicate Numbered(steps: seq<PlanStep>) {
    forall i | 0 <= i < |steps| :: steps[i].index == i + 1
  }

  /** Indices grow along the plan; parsing and renumbering both give this. */
  predicate Increasing(steps: seq<PlanStep>) {
    forall i, j | 0 <= i < j < |steps| :: steps[i].index < steps[j].index
  }

  predicate DistinctIndices(steps: seq<PlanStep>) {
    forall i, j | 0 <= i < j < |steps| :: steps[i].index != steps[j].index
  }

  /** Looking up a step's own index finds that step exactly when no earlier step shares it. */
  lemma {:induction false} PositionExact(steps: seq<PlanStep>, i: nat)
    requires i < |steps|
    ensures Position(steps, steps[i].index) == Some(i) <==> forall j | 0 <= j < i :: steps[j].index != steps[i].index
  {
    if i > 0 && steps[0].index != steps[i].index {
      PositionExact(steps[1..], i - 1);
      assert forall j | 0 <= j < i - 1 :: steps[1..][j] == steps[j + 1];
      assert forall j | 1 <= j < i :: steps[j] == steps[1..][j - 1];
    }
  }

  lemma {:induction false} NextStepExact(steps: seq<PlanStep>)
    ensures match NextStep(steps)
            case None => forall i | 0 <= i < |steps| :: !steps[i].status.Pending?
            case Some(k) =>
              k < |steps| && steps[k].status.Pending? && forall i | 0 <= i < k :: !steps[i].status.Pending?
  {
    if steps != [] {
      NextStepExact(steps[1..]);
    }
  }

  /** An update with a known index changes the first step that has it: its status, and its result if
      one is given; it changes nothing else. An unknown index is refused. */
  lemma UpdateExact(steps: seq<PlanStep>, index: int, status: StepStatus, result: Option<string>)
    ensures var updated := UpdateStep(steps, index, status, result);
            && (updated.None? <==> forall i | 0 <= i < |steps| :: steps[i].index != index)
            && (updated.Some? ==>
                  && |updated.value| == |steps|
                  && exists i | 0 <= i < |steps| :: steps[i].index == index && FirstChanged(steps, updated.value, i)
                       && updated.value[i] == PlanStep(index, steps[i].description, status,
                                                       if result.None? then steps[i].result else result))
  {
    if forall i | 0 <= i < |steps| :: steps[i].index != index {
      PositionAbsent(steps, index);
    } else {
      var i := FirstWith(steps, index);
      PositionExact(steps, i);
    }
  }

  /** Position `i` is the first with its index, and at most it differs. */
  predicate FirstChanged(steps: seq<PlanStep>, updated: seq<PlanStep>, i: nat)
    requires i < |steps| == |updated|
  {
    && (forall j | 0 <= j < i :: steps[j].index != steps[i].index)
    && (forall j | 0 <= j < |steps| && j != i :: updated[j] == steps[j])
  }

  lemma {:induction false} FirstWith(steps: seq<PlanStep>, index: int) returns (i: nat)
    requires exists j | 0 <= j < |steps| :: steps[j].index == index
    ensures i < |steps| && steps[i].index == index && forall j | 0 <= j < i :: steps[j].index != index
  {
    if steps[0].index == index {
      i := 0;
    } else {
      var j :| 0 <= j < |steps| && steps[j].index == index;
      assert steps[1..][j - 1].index == index;
      i := FirstWith(steps[1..], index);
      i := i + 1;
      assert forall k | 1 <= k < i :: steps[k] == steps[1..][k - 1];
    }
  }

  lemma {:induction false} WithoutAbsent(steps: seq<PlanStep>, index: int)
    requires forall i | 0 <= i < |steps| :: steps[i].index != index
    ensures Without(steps, index) == steps
  {
    if steps != [] {
      WithoutAbsent(steps[1..], index);
    }
  }

  lemma {:induction false} WithoutOne(front: seq<PlanStep>, x: PlanStep, back: seq<PlanStep>)
    requires forall s | s in front + back :: s.index != x.index
    ensures Without(front + [x] + back, x.index) == front + back
  {
    var all := front + [x] + back;
    if front == [] {
      assert all[1..] == back && [] + back == back;
      assert forall i | 0 <= i < |back| :: back[i] in front + back;
      WithoutAbsent(back, x.index);
    } else {
      assert front[0] in front + back;
      assert all[1..] == front[1..] + [x] + back;
      WithoutOne(front[1..], x, back);
      assert [front[0]] + (front[1..] + back) == front + back;
    }
  }

  lemma InsertRemove(steps: seq<PlanStep>, description: string, at: nat)
    requires Numbered(steps) && at <= |steps|
    ensures RemoveStep(InsertAt(steps, description, at), at + 1) == steps
  {
    var added := InsertAt(steps, description, at);
    var front, x, back := added[..at], added[at], added[at + 1..];
    assert added == front + [x] + back;
    WithoutOne(front, x, back);
    assert Renumbered(front + back) == steps;
  }

  /** An added step is pending and stands where it was asked for; removing it again gives back
      the numbered plan. */
  lemma RemoveUndoesAdd(steps: seq<PlanStep>, description: string, after: Option<int>)
    requires Numbered(steps)
    ensures var (added, at) := (AddStep(steps, description, after), InsertionPoint(steps, after));
            && Numbered(added) && |added| == |steps| + 1
            && added[at] == NewStep(at + 1, description)
            && at == (if after.Some? && 1 <= after.value <= |steps| then after.value else |steps|)
            && RemoveStep(added, at + 1) == steps
  {
    if after.Some? && 1 <= after.value <= |steps| {
      PositionExact(steps, after.value - 1);
    } else if after.Some? {
      PositionAbsent(steps, after.value);
    }
    InsertRemove(steps, description, InsertionPoint(steps, after));
  }

  lemma {:induction false} PositionAbsent(steps: seq<PlanStep>, index: int)
    requires forall i | 0 <= i < |steps| :: steps[i].index != index
    ensures Position(steps, index).None?
  {
    if steps != [] {
      PositionAbsent(steps[1..], index);
    }
  }

  // ---------- parsing ----------

  /** The fallback plan; the middle step depends on whether the task speaks of a repair. */
  function Fallback(repair: bool): seq<string> {
    ["Inspect the relevant workspace files and current project state.",
     if repair then "Investigate the failure, apply the required fix, and update tests."
     else "Implement the required changes for the task.",
     "Run the most relevant verification and summarize the outcome."]
  }

  function Numbering(descriptions: seq<string>): seq<PlanStep> {
    seq(|descriptions|, i requires 0 <= i < |descriptions| => NewStep(i + 1, descriptions[i]))
  }

  /** The steps of a reply: an entry that is no object or has a blank description is dropped,
      but the others keep the numbers they had. */
  function ParsedSteps(entries: seq<Option<string>>): seq<PlanStep> {
    if entries == [] then []
    else
      var n := |entries| - 1;
      ParsedSteps(entries[..n]) +
      (if entries[n].Some? && Strip(entries[n].value) != "" then [NewStep(n + 1, Strip(entries[n].value))] else [])
  }

  /** `_parse_plan_response`; `None` is a reply without a usable list of steps. */
  function ParsePlan(entries: Option<seq<Option<string>>>, repair: bool): seq<PlanStep> {
    var steps := if entries.Some? then ParsedSteps(entries.value) else [];
    if steps == [] then Numbering(Fallback(repair)) else steps
  }

  lemma {:induction false} ParsedStepsBelow(entries: seq<Option<string>>)
    ensures var steps := ParsedSteps(entries);
            && Increasing(steps)
            && forall i | 0 <= i < |steps| ::
                 steps[i].index <= |entries| && steps[i].status.Pending? && steps[i].description != ""
  {
    if entries != [] {
      ParsedStepsBelow(entries[..|entries| - 1]);
    }
  }

  /** A parsed plan is never empty, has only pending steps and increasing indices. */
  lemma ParsePlanUsable(entries: Option<seq<Option<string>>>, repair: bool)
    ensures var steps := ParsePlan(entries, repair); steps != [] && Increasing(steps) && AllPending(steps)
  {
    if entries.Some? {
      ParsedStepsBelow(entries.value);
    }
    NumberingUsable(Fallback(repair));
  }

  predicate AllPending(steps: seq<PlanStep>) {
    forall i | 0 <= i < |steps| :: steps[i].status.Pending?
  }

  lemma NumberingUsable(descriptions: seq<string>)
    ensures var steps := Numbering(descriptions);
            |steps| == |descriptions| && Increasing(steps) && AllPending(steps)
  {
  }

  // ---------- the plan object ----------

  class TaskPlan {
    var steps: seq<PlanStep>
    var status: PlanStatus

    constructor (steps: seq<PlanStep>)
      ensures this.steps == steps && status == Planning
    {
      this.steps, this.status := steps, Planning;
    }

    method Next() returns (at: Option<nat>)
      ensures at == NextStep(steps)
    {
      for i := 0 to |steps|
        invariant NextStep(steps) == (var r := NextStep(steps[i..]); if r.Some? then Some(r.value + i) else None)
      {
        assert steps[i..][1..] == steps[i + 1..];
        if steps[i].status.Pending? {
          return Some(i);
        }
      }
      assert steps[|steps|..] == [];
      return None;
    }

    /** Sets one step in place; an unknown index is an error and changes nothing. */
    method Update(index: int, status: StepStatus, result: Option<string>) returns (ok: bool)
      modifies this`steps
      ensures ok <==> UpdateStep(old(steps), index, status, result).Some?
      ensures steps == if ok then UpdateStep(old(steps), index, status, result).value else old(steps)
    {
      for i := 0 to |steps|
        invariant steps == old(steps)
        invariant Position(steps, index) ==
                  (var r := Position(steps[i..], index); if r.Some? then Some(r.value + i) else None)
      {
        assert steps[i..][1..] == steps[i + 1..];
        if steps[i].index == index {
          steps := steps[i := WithStatus(steps[i], status, result)];
          return true;
        }
      }
      assert steps[|steps|..] == [];
      return false;
    }

    method Add(description: string, after: Option<int>)
      modifies this`steps
      ensures steps == AddStep(old(steps), description, after)
    {
      var at := |steps|;
      if after.Some? {
        var found := Position(steps, after.value);
        if found.Some? && found.value < |steps| {
          at := found.value + 1;
        }
      }
      steps := InsertAt(steps, description, at);
    }

    method Remove(index: int)
      modifies this`steps
      ensures steps == RemoveStep(old(steps), index)
    {
      steps := Renumbered(Without(steps, index));
    }
  }
}
