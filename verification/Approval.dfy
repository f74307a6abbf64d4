/** The approval handshake between the session runtime and the agent loop, on asyncio's
    first-in first-out queue of ready tasks. */
module Approval {
  import opened Text

  datatype Policy = Auto | Deny | Shell

  /** What waits in the ready queue: the task that drains the agent's events, the task that
      resumes the agent after a request, or any other task. */
  datatype Handle = Runtime | Resume | Other

  /** The agent loop as an asynchronous generator. */
  datatype Generator =
    | AtYield(request: bool)            // suspended at an event, perhaps an approval request
    | Waiting(decision: Option<bool>)   // inside `_await_tool_approval`; its future is open or resolved
    | Working                           // awaits a tool or the model
    | Exhausted

  datatype Item = Event(request: bool) | End

  /** Where the draining task stands. */
  datatype Pc =
    | Draining                  // asks the generator for an event
    | Handling(request: bool)   // its consumer holds the event
    | Sleeping                  // has created the resuming task, in `sleep(0)`
    | Joining                   // awaits the resuming task
    | Paused                    // has reported the request and returned; the user will decide
    | Over

  datatype ResumeTask = NoTask | Live | Finished(item: Item)

  datatype State = State(
    policy: Policy,
    ready: seq<Handle>,
    pc: Pc,
    gen: Generator,
    task: ResumeTask,
    parked: bool,               // the task at work waits for the world outside
    asked: nat,                 // approval requests so far
    answered: seq<bool>)        // decisions the loop has received

  /** One thing the generator does when it runs: yield an event, which the consumer may hold on
      to, end, or wait for something outside. */
  datatype Outcome = Yields(request: bool, linger: bool) | Ends | Blocks

  /** The world's part in one turn of the event loop: other tasks become ready, what is waited
      for outside happens, and what the generator, the consumer and the user do. */
  datatype Tick = Tick(others: nat, wake: bool, run: seq<Outcome>, linger: bool, user: bool)

  function Start(policy: Policy): State {
    State(policy, [Runtime], Draining, AtYield(false), NoTask, false, 0, [])
  }

  /** The automatic policies' answer to every request. */
  function Answer(policy: Policy): bool {
    policy.Auto?
  }

  // ---------- the steps ----------

  function Waiter(s: State): Handle {
    if s.task.Live? then Resume else Runtime
  }

  /** `supply_tool_approval`: nothing happens unless the loop is waiting. */
  function Supply(s: State, decision: bool): State {
    if s.gen == Waiting(None) then s.(gen := Waiting(Some(decision)), ready := s.ready + [Waiter(s)]) else s
  }

  function Ask(s: State): State {
    if s.policy.Shell? then s.(pc := Paused, parked := true)
    else s.(task := Live, pc := Sleeping, ready := s.ready + [Resume, Runtime])
  }

  function Yielded(s: State, request: bool): State {
    s.(gen := AtYield(request), asked := s.asked + if request then 1 else 0)
  }

  /** The draining task runs the generator until something makes it wait. */
  function Drive(s: State, run: seq<Outcome>): State
    decreases |run|
  {
    if run == [] || run[0].Blocks? then s.(gen := Working, parked := true, pc := Draining)
    else if run[0].Ends? then s.(gen := Exhausted, pc := Over)
    else
      var t := Yielded(s, run[0].request);
      if run[0].linger then t.(pc := Handling(run[0].request), parked := true)
      else if run[0].request then Ask(t)
      else Drive(t, run[1..])
  }

  function Received(s: State): State {
    if s.gen.Waiting? && s.gen.decision.Some? then s.(answered := s.answered + [s.gen.decision.value]) else s
  }

  /** The draining task asks for the next event, or goes on asking. */
  function Advance(s: State, run: seq<Outcome>): State {
    if s.gen == AtYield(true) then s.(gen := Waiting(None), pc := Draining)
    else if s.gen == Waiting(None) then s
    else if s.gen.Exhausted? then s.(pc := Over)
    else Drive(Received(s), run)
  }

  function HandleEvent(s: State, request: bool, run: seq<Outcome>): State {
    if request then Ask(s) else Advance(s, run)
  }

  function Take(s: State, item: Item, t: Tick): State {
    var u := s.(task := NoTask);
    match item
    case End => u.(pc := Over)
    case Event(request) =>
      if t.linger then u.(pc := Handling(request), parked := true) else HandleEvent(u, request, t.run)
  }

  function JoinTask(s: State, t: Tick): State {
    if s.task.Finished? then Take(s, s.task.item, t) else s.(pc := Joining)
  }

  function RunRuntime(s: State, t: Tick): State {
    match s.pc
    case Draining => Advance(s, t.run)
    case Handling(request) => HandleEvent(s, request, t.run)
    case Sleeping => JoinTask(Supply(s, Answer(s.policy)), t)
    case Joining => JoinTask(s, t)
    case Paused => Advance(Supply(s, t.user), t.run)
    case Over => s
  }

  function Complete(s: State, item: Item): State {
    s.(task := Finished(item), ready := s.ready + if s.pc.Joining? then [Runtime] else [])
  }

  /** The resuming task runs the generator for one event. */
  function Produce(s: State, run: seq<Outcome>): State {
    if run == [] || run[0].Blocks? then s.(gen := Working, parked := true)
    else if run[0].Ends? then Complete(s.(gen := Exhausted), End)
    else Complete(Yielded(s, run[0].request), Event(run[0].request))
  }

  function RunResume(s: State, t: Tick): State {
    if !s.task.Live? then s
    else if s.gen == AtYield(true) then s.(gen := Waiting(None))
    else if s.gen == Waiting(None) then s
    else if s.gen.Exhausted? then Complete(s, End)
    else Produce(Received(s), t.run)
  }

  function Dispatch(s: State, h: Handle, t: Tick): State {
    match h
    case Runtime => RunRuntime(s, t)
    case Resume => RunResume(s, t)
    case Other => s
  }

  function Others(n: nat): (r: seq<Handle>)
    ensures |r| == n && forall i | 0 <= i < n :: r[i] == Other
  {
    seq(n, i => Other)
  }

  function Arrive(s: State, t: Tick): State {
    var u := s.(ready := s.ready + Others(t.others));
    if t.wake && s.parked then u.(ready := u.ready + [Waiter(s)], parked := false) else u
  }

  /** One turn: arrivals at the back of the queue, then the task at the front runs until it
      waits. */
  function Step(s: State, t: Tick): State {
    var a := Arrive(s, t);
    if a.ready == [] then a else Dispatch(a.(ready := a.ready[1..]), a.ready[0], t)
  }

  function Run(s: State, ticks: seq<Tick>): State {
    if ticks == [] then s else Step(Run(s, ticks[..|ticks| - 1]), ticks[|ticks| - 1])
  }

  // ---------- the queue ----------

  function Count(q: seq<Handle>, h: Handle): nat {
    multiset(q)[h]
  }

  function First(q: seq<Handle>, h: Handle): nat {
    if q == [] || q[0] == h then 0 else 1 + First(q[1..], h)
  }

  lemma {:induction false} FirstAppend(q: seq<Handle>, more: seq<Handle>, h: Handle)
    requires h in q
    ensures First(q + more, h) == First(q, h) < |q|
  {
    if q[0] != h {
      assert (q + more)[1..] == q[1..] + more;
      FirstAppend(q[1..], more, h);
    }
  }

  lemma {:induction false} FirstSkip(q: seq<Handle>, more: seq<Handle>, h: Handle)
    requires h !in q
    ensures First(q + more, h) == |q| + First(more, h)
  {
    if q == [] {
      assert q + more == more;
    } else {
      assert (q + more)[1..] == q[1..] + more;
      FirstSkip(q[1..], more, h);
    }
  }

  lemma CountAppend(a: seq<Handle>, b: seq<Handle>, h: Handle)
    ensures Count(a + b, h) == Count(a, h) + Count(b, h)
  {
  }

  lemma CountPop(q: seq<Handle>, h: Handle)
    requires q != []
    ensures Count(q, h) == Count(q[1..], h) + (if q[0] == h then 1 else 0)
    ensures Count(q, h) > 0 <==> h in q
  {
    assert q == [q[0]] + q[1..];
  }

  lemma {:induction false} CountOthers(n: nat)
    ensures Count(Others(n), Runtime) == 0 && Count(Others(n), Resume) == 0
  {
    assert Runtime !in Others(n) && Resume !in Others(n);
  }

  // ---------- the automatic policies ----------

  predicate Queued(s: State, runtime: nat, resume: nat) {
    Count(s.ready, Runtime) == runtime && Count(s.ready, Resume) == resume
  }

  /** How far a request is: 0 none open; 6 in the finished resuming task; 5 held by the
      consumer; 4 about to be handed over; 3 the resuming task is to enter the wait; 2 the
      answer is to be supplied; 1 the answer is to be received. */
  function Stage(s: State): nat {
    match s.pc
    case Handling(request) => if !request then 0 else if s.parked then 5 else 4
    case Sleeping => if s.gen == AtYield(true) then 3 else 2
    case Joining => if s.task == Finished(Event(true)) then 6 else if s.gen.Waiting? then 1 else 0
    case _ => 0
  }

  predicate Inv(s: State) {
    && !s.policy.Shell?
    && (forall i | 0 <= i < |s.answered| :: s.answered[i] == Answer(s.policy))
    && s.asked == |s.answered| + (if Stage(s) > 0 then 1 else 0)
    && match s.pc
       case Draining =>
         s.task.NoTask? && (s.gen == AtYield(false) || s.gen.Working?) && Queued(s, if s.parked then 0 else 1, 0)
       case Handling(request) =>
         s.task.NoTask? && s.gen == AtYield(request) && Queued(s, if s.parked then 0 else 1, 0)
       case Sleeping =>
         && s.task.Live? && !s.parked
         && (|| (s.gen == AtYield(true) && Queued(s, 1, 1) && First(s.ready, Resume) < First(s.ready, Runtime))
             || (s.gen == Waiting(None) && Queued(s, 1, 0)))
       case Joining =>
         || (s.task.Live? && s.gen == Waiting(Some(Answer(s.policy))) && !s.parked && Queued(s, 0, 1))
         || (s.task.Live? && s.gen.Working? && Queued(s, 0, if s.parked then 0 else 1))
         || (s.task.Finished? && !s.parked && Queued(s, 1, 0)
             && s.gen == match s.task.item case End => Exhausted case Event(request) => AtYield(request))
       case Paused => false
       case Over => s.task.NoTask? && !s.parked && Queued(s, 0, 0)
  }

  /** The task that the request waits for, in the stages that wait for one. */
  function Next(s: State): Handle {
    if Stage(s) == 3 || Stage(s) == 1 then Resume else Runtime
  }

  /** How many tasks run before it. */
  function Ahead(s: State): nat {
    First(s.ready, Next(s))
  }

  lemma ArriveKeeps(s: State, t: Tick)
    requires Inv(s)
    ensures Inv(Arrive(s, t))
    ensures Stage(Arrive(s, t)) <= Stage(s) && (Stage(s) != 5 ==> Stage(Arrive(s, t)) == Stage(s))
    ensures Stage(s) == 5 ==> (Stage(Arrive(s, t)) == 5 <==> !t.wake)
    ensures Stage(s) in {1, 2, 3, 4, 6} ==> Ahead(Arrive(s, t)) == Ahead(s)
    ensures Arrive(s, t).answered == s.answered
  {
    var others := Others(t.others);
    CountOthers(t.others);
    CountAppend(s.ready, others, Runtime);
    CountAppend(s.ready, others, Resume);
    CountAppend(s.ready + others, [Waiter(s)], Runtime);
    CountAppend(s.ready + others, [Waiter(s)], Resume);
    if Runtime in s.ready {
      FirstAppend(s.ready, others, Runtime);
    }
    if Resume in s.ready {
      FirstAppend(s.ready, others, Resume);
    }
  }

  lemma {:induction false} DriveKeeps(s: State, run: seq<Outcome>)
    requires !s.policy.Shell? && s.task.NoTask? && !s.parked && Queued(s, 0, 0) && s.asked == |s.answered|
    requires forall i | 0 <= i < |s.answered| :: s.answered[i] == Answer(s.policy)
    ensures Inv(Drive(s, run)) && Drive(s, run).answered == s.answered
    decreases |run|
  {
    if run != [] && run[0].Yields? && !run[0].linger {
      var t := Yielded(s, run[0].request);
      if run[0].request {
        AskKeeps(t);
      } else {
        DriveKeeps(t, run[1..]);
      }
    }
  }

  lemma AskKeeps(s: State)
    requires !s.policy.Shell? && s.task.NoTask? && !s.parked && Queued(s, 0, 0) && s.asked == |s.answered| + 1
    requires s.gen == AtYield(true)
    requires forall i | 0 <= i < |s.answered| :: s.answered[i] == Answer(s.policy)
    ensures Inv(Ask(s)) && Stage(Ask(s)) == 3
  {
    CountAppend(s.ready, [Resume, Runtime], Runtime);
    CountAppend(s.ready, [Resume, Runtime], Resume);
    FirstSkip(s.ready, [Resume, Runtime], Resume);
    FirstSkip(s.ready, [Resume, Runtime], Runtime);
    assert [Resume, Runtime][1..] == [Runtime];
  }

  /** The front task has just been taken from the queue. */
  function Popped(a: State): State
    requires a.ready != []
  {
    a.(ready := a.ready[1..])
  }

  lemma RuntimeKeeps(a: State, t: Tick)
    requires Inv(a) && a.ready != [] && a.ready[0] == Runtime
    ensures var s := RunRuntime(Popped(a), t);
            && Inv(s) && s.answered == a.answered
            && (Stage(a) > 0 ==> 0 < Stage(s) < Stage(a))
    ensures a.pc.Sleeping? ==> a.gen == Waiting(None)
  {
    var s := Popped(a);
    CountPop(a.ready, Runtime);
    CountPop(a.ready, Resume);
    match a.pc
    case Draining => DriveKeeps(s, t.run);
    case Handling(request) =>
      if request {
        AskKeeps(s);
      } else {
        DriveKeeps(s, t.run);
      }
    case Sleeping =>
      CountAppend(s.ready, [Resume], Runtime);
      CountAppend(s.ready, [Resume], Resume);
    case Joining =>
      var u := s.(task := NoTask);
      if a.task == Finished(Event(true)) {
        AskKeeps(u);
      } else if a.task == Finished(Event(false)) {
        DriveKeeps(u, t.run);
      }
    case Paused =>
    case Over =>
  }

  lemma ResumeKeeps(a: State, t: Tick)
    requires Inv(a) && a.ready != [] && a.ready[0] == Resume
    ensures var s := RunResume(Popped(a), t);
            && Inv(s)
            && (Stage(a) == 1 ==> s.answered == a.answered + [Answer(a.policy)])
            && (Stage(a) != 1 ==> s.answered == a.answered)
            && (Stage(a) > 1 ==> 0 < Stage(s) < Stage(a))
  {
    var s := Popped(a);
    CountPop(a.ready, Runtime);
    CountPop(a.ready, Resume);
    CountAppend(s.ready, [Runtime], Runtime);
    CountAppend(s.ready, [Runtime], Resume);
  }

  lemma OtherKeeps(a: State)
    requires Inv(a) && a.ready != [] && a.ready[0] == Other
    ensures Inv(Popped(a)) && Stage(Popped(a)) == Stage(a)
    ensures Stage(a) in {1, 2, 3, 4, 6} ==> Ahead(Popped(a)) < Ahead(a)
  {
    CountPop(a.ready, Runtime);
    CountPop(a.ready, Resume);
  }

  /** One turn moves an open request: it is answered with the policy's answer, or it comes to a
      later stage, or fewer tasks are ahead, unless the consumer still holds it. */
  lemma StepKeeps(s: State, t: Tick)
    requires Inv(s)
    ensures var u := Step(s, t);
            && Inv(u)
            && (|| u.answered == s.answered
                || (Stage(s) == 1 && u.answered == s.answered + [Answer(s.policy)]))
            && (Stage(s) > 0 && u.answered == s.answered ==>
                  && 0 < Stage(u) <= Stage(s)
                  && (Stage(u) == Stage(s) ==> if Stage(s) == 5 then !t.wake else Ahead(u) < Ahead(s)))
  {
    var a := Arrive(s, t);
    ArriveKeeps(s, t);
    if a.ready != [] {
      match a.ready[0]
      case Runtime => RuntimeKeeps(a, t);
      case Resume => ResumeKeeps(a, t);
      case Other => OtherKeeps(a);
    }
  }

  lemma {:induction false} RunKeeps(policy: Policy, ticks: seq<Tick>)
    requires !policy.Shell?
    ensures Inv(Run(Start(policy), ticks)) && Run(Start(policy), ticks).policy == policy
  {
    if ticks == [] {
      assert multiset([Runtime])[Runtime] == 1 && multiset([Runtime])[Resume] == 0;
    } else {
      RunKeeps(policy, ticks[..|ticks| - 1]);
      StepKeeps(Run(Start(policy), ticks[..|ticks| - 1]), ticks[|ticks| - 1]);
      PolicyFixed(Run(Start(policy), ticks[..|ticks| - 1]), ticks[|ticks| - 1]);
    }
  }

  lemma {:induction false} DrivePolicy(s: State, run: seq<Outcome>)
    ensures Drive(s, run).policy == s.policy
    decreases |run|
  {
    if run != [] && run[0].Yields? {
      DrivePolicy(Yielded(s, run[0].request), run[1..]);
    }
  }

  lemma AdvancePolicy(s: State, run: seq<Outcome>)
    ensures Advance(s, run).policy == s.policy && HandleEvent(s, true, run).policy == s.policy
    ensures HandleEvent(s, false, run).policy == s.policy
  {
    DrivePolicy(Received(s), run);
  }

  lemma JoinPolicy(s: State, t: Tick)
    ensures JoinTask(s, t).policy == s.policy
  {
    AdvancePolicy(s.(task := NoTask), t.run);
  }

  lemma RuntimePolicy(s: State, t: Tick)
    ensures RunRuntime(s, t).policy == s.policy
  {
    AdvancePolicy(s, t.run);
    JoinPolicy(s, t);
    JoinPolicy(Supply(s, Answer(s.policy)), t);
    AdvancePolicy(Supply(s, t.user), t.run);
  }

  lemma PolicyFixed(s: State, t: Tick)
    ensures Step(s, t).policy == s.policy
  {
    var a := Arrive(s, t);
    if a.ready != [] {
      RuntimePolicy(Popped(a), t);
    }
  }

  /** Under the automatic policies, in every run: each decision the loop receives is a yes under the
      approving policy and a no under the denying one, at most one request is open at a time, and
      the decision is only ever supplied when the loop is already waiting for it. */
  lemma PolicyAnswersEveryRequest(policy: Policy, ticks: seq<Tick>, t: Tick)
    requires !policy.Shell?
    ensures var s := Run(Start(policy), ticks);
            && (forall i | 0 <= i < |s.answered| :: s.answered[i] <==> policy == Auto)
            && |s.answered| <= s.asked <= |s.answered| + 1
            && var a := Arrive(s, t);
               (a.ready != [] && a.ready[0] == Runtime && a.pc.Sleeping? ==> a.gen == Waiting(None))
  {
    var s := Run(Start(policy), ticks);
    RunKeeps(policy, ticks);
    ArriveKeeps(s, t);
    var a := Arrive(s, t);
    if a.ready != [] && a.ready[0] == Runtime {
      RuntimeKeeps(a, t);
    }
  }

  // ---------- every request is answered ----------

  /** The state after the turns `from` up to `to` of an endless sequence of turns. */
  function After(s: State, ticks: nat -> Tick, from: nat, to: nat): State
    decreases to - from
  {
    if from >= to then s else After(Step(s, ticks(from)), ticks, from + 1, to)
  }

  ghost predicate WakesAfter(ticks: nat -> Tick, k: nat) {
    exists m: nat :: m >= k && ticks(m).wake
  }

  /** What is waited for outside, the consumer above all, always comes back. */
  ghost predicate Returns(ticks: nat -> Tick) {
    forall k: nat :: WakesAfter(ticks, k)
  }

  lemma {:induction false} Reaches(s: State, ticks: nat -> Tick, k: nat, m: nat) returns (n: nat)
    requires Inv(s) && Stage(s) > 0 && Returns(ticks)
    requires Stage(s) == 5 ==> m >= k && ticks(m).wake
    ensures n >= k && After(s, ticks, k, n).answered == s.answered + [Answer(s.policy)]
    decreases Stage(s), if Stage(s) != 5 then Ahead(s) else if k <= m then m - k else 0
  {
    var u := Step(s, ticks(k));
    StepKeeps(s, ticks(k));
    PolicyFixed(s, ticks(k));
    if u.answered != s.answered {
      n := k + 1;
      assert After(s, ticks, k, n) == After(u, ticks, k + 1, n) == u;
    } else {
      assert WakesAfter(ticks, k + 1);
      var next: nat :| next >= k + 1 && ticks(next).wake;
      n := Reaches(u, ticks, k + 1, if Stage(s) == 5 && Stage(u) == 5 then m else next);
    }
  }

  /** A request has been yielded that the loop has not had an answer to. */
  predicate Open(s: State) {
    s.asked > |s.answered|
  }

  /** From every state of every run, however other tasks are scheduled, every open request gets
      its answer: the loop never stays waiting. */
  ghost predicate Responsive(policy: Policy) {
    forall ticks: seq<Tick>, later: nat -> Tick ::
      Returns(later) && Open(Run(Start(policy), ticks)) ==> GetsAnswer(Run(Start(policy), ticks), later)
  }

  ghost predicate GetsAnswer(s: State, later: nat -> Tick) {
    exists n: nat, answer: bool :: After(s, later, 0, n).answered == s.answered + [answer]
  }

  lemma EveryRequestAnswered(policy: Policy, ticks: seq<Tick>, later: nat -> Tick) returns (n: nat)
    requires !policy.Shell? && Returns(later) && Open(Run(Start(policy), ticks))
    ensures var s := Run(Start(policy), ticks);
            After(s, later, 0, n).answered == s.answered + [policy == Auto]
  {
    RunKeeps(policy, ticks);
    assert WakesAfter(later, 0);
    var m: nat :| m >= 0 && later(m).wake;
    n := Reaches(Run(Start(policy), ticks), later, 0, m);
  }

  // ---------- the shell policy ----------

  /** The loop waits, and nothing that could wake it is left. */
  predicate Stuck(s: State) {
    s.pc.Draining? && s.gen == Waiting(None) && s.task.NoTask? && !s.parked && Queued(s, 0, 0)
  }

  predicate ShellInv(s: State) {
    && s.policy.Shell? && s.task.NoTask? && s.answered == []
    && (if s.asked == 0 then
          match s.pc
          case Draining => (s.gen == AtYield(false) || s.gen.Working?) && Queued(s, if s.parked then 0 else 1, 0)
          case Handling(request) => !request && s.gen == AtYield(false) && Queued(s, if s.parked then 0 else 1, 0)
          case Over => !s.parked && Queued(s, 0, 0)
          case _ => false
        else
          && s.asked == 1
          && (Stuck(s) ||
              ((s.pc == Handling(true) || s.pc.Paused?) && s.gen == AtYield(true)
               && Queued(s, if s.parked then 0 else 1, 0))))
  }

  lemma {:induction false} ShellDriveKeeps(s: State, run: seq<Outcome>)
    requires s.policy.Shell? && s.task.NoTask? && !s.parked && Queued(s, 0, 0) && s.asked == 0 && s.answered == []
    ensures ShellInv(Drive(s, run))
    decreases |run|
  {
    if run != [] && run[0].Yields? && !run[0].linger && !run[0].request {
      ShellDriveKeeps(Yielded(s, false), run[1..]);
    }
  }

  lemma ShellArriveKeeps(s: State, t: Tick)
    requires ShellInv(s)
    ensures ShellInv(Arrive(s, t)) && Arrive(s, t).asked == s.asked
    ensures Stuck(s) ==> Stuck(Arrive(s, t))
  {
    var others := Others(t.others);
    CountOthers(t.others);
    CountAppend(s.ready, others, Runtime);
    CountAppend(s.ready, others, Resume);
    CountAppend(s.ready + others, [Runtime], Runtime);
    CountAppend(s.ready + others, [Runtime], Resume);
  }

  lemma ShellStepKeeps(s: State, t: Tick)
    requires ShellInv(s)
    ensures ShellInv(Step(s, t))
    ensures Stuck(s) ==> Stuck(Step(s, t))
  {
    var a := Arrive(s, t);
    ShellArriveKeeps(s, t);
    if a.ready != [] {
      CountPop(a.ready, Runtime);
      CountPop(a.ready, Resume);
      if a.ready[0] == Runtime && a.asked == 0 {
        ShellDriveKeeps(Popped(a), t.run);
      }
    }
  }

  lemma {:induction false} ShellRunKeeps(ticks: seq<Tick>)
    ensures ShellInv(Run(Start(Shell), ticks))
  {
    if ticks == [] {
      assert multiset([Runtime])[Runtime] == 1 && multiset([Runtime])[Resume] == 0;
    } else {
      ShellRunKeeps(ticks[..|ticks| - 1]);
      ShellStepKeeps(Run(Start(Shell), ticks[..|ticks| - 1]), ticks[|ticks| - 1]);
    }
  }

  /** Under the shell policy no request is ever answered, whatever the user decides: the
      decision is supplied before the loop waits, is lost, and leaves the loop waiting. */
  lemma ShellNeverAnswers(ticks: seq<Tick>)
    ensures var s := Run(Start(Shell), ticks);
            && s.answered == [] && s.asked <= 1
            && (Open(s) && !s.pc.Handling? && !s.pc.Paused? ==> Stuck(s))
  {
    ShellRunKeeps(ticks);
  }

  lemma {:induction false} StuckForever(s: State, later: nat -> Tick, from: nat, to: nat)
    requires ShellInv(s) && Stuck(s)
    ensures Stuck(After(s, later, from, to)) && After(s, later, from, to).answered == []
    decreases if from < to then to - from else 0
  {
    if from < to {
      ShellStepKeeps(s, later(from));
      StuckForever(Step(s, later(from)), later, from + 1, to);
    }
  }

  /** The run: the loop asks, the shell shows the request, the user decides. */
  function DecidedRun(user: bool): seq<Tick> {
    [Tick(0, false, [Yields(true, false)], false, user), Tick(0, true, [], false, user)]
  }

  lemma StuckReachable(user: bool)
    ensures var s := Run(Start(Shell), DecidedRun(user)); Stuck(s) && Open(s)
  {
    var (ticks, s0) := (DecidedRun(user), Start(Shell));
    assert ticks[..1] == [ticks[0]] && [ticks[0]][..0] == [];
    assert Others(0) == [] && [Runtime] + [] == [Runtime] && [Runtime][1..] == [];
    var s1 := Step(Run(s0, []), ticks[0]);
    assert Run(s0, [ticks[0]]) == s1;
    assert s1.pc.Paused? && s1.parked && s1.ready == [] && s1.gen == AtYield(true);
    var a := Arrive(s1, ticks[1]);
    assert a.ready == [Runtime] && a.ready[1..] == [];
    assert Run(s0, ticks) == Step(s1, ticks[1]);
    ShellRunKeeps(ticks);
  }

  /** The handshake answers every request exactly under the policies other than the shell's. */
  lemma ResponsiveExactly(policy: Policy)
    ensures Responsive(policy) <==> !policy.Shell?
  {
    if policy.Shell? {
      var s := Run(Start(Shell), DecidedRun(true));
      StuckReachable(true);
      ShellRunKeeps(DecidedRun(true));
      var later := (n: nat) => Tick(0, true, [], false, true);
      forall k: nat ensures WakesAfter(later, k) {
        assert later(k).wake;
      }
      forall n: nat, answer: bool ensures After(s, later, 0, n).answered != s.answered + [answer] {
        StuckForever(s, later, 0, n);
      }
      assert Returns(later) && Open(s) && !GetsAnswer(s, later);
    } else {
      forall ticks: seq<Tick>, later: nat -> Tick | Returns(later) && Open(Run(Start(policy), ticks))
        ensures GetsAnswer(Run(Start(policy), ticks), later)
      {
        var n := EveryRequestAnswered(policy, ticks, later);
      }
    }
  }

  // ---------- the end of a drain ----------

  /** In none of these turns does the generator end. */
  predicate EndsNever(run: seq<Outcome>) {
    forall i | 0 <= i < |run| :: !run[i].Ends?
  }

  predicate Unended(s: State) {
    !s.gen.Exhausted? && !s.pc.Over? && s.task != Finished(End)
  }

  lemma {:induction false} DriveUnended(s: State, run: seq<Outcome>)
    requires Unended(s) && EndsNever(run)
    ensures Unended(Drive(s, run))
    decreases |run|
  {
    if run != [] && run[0].Yields? && !run[0].linger && !run[0].request {
      DriveUnended(Yielded(s, run[0].request), run[1..]);
    }
  }

  lemma AdvanceUnended(s: State, run: seq<Outcome>)
    requires Unended(s) && EndsNever(run)
    ensures Unended(Advance(s, run))
  {
    DriveUnended(Received(s), run);
  }

  lemma RuntimeUnended(s: State, t: Tick)
    requires Unended(s) && EndsNever(t.run)
    ensures Unended(RunRuntime(s, t))
  {
    AdvanceUnended(s, t.run);
    AdvanceUnended(Supply(s, t.user), t.run);
    AdvanceUnended(s.(task := NoTask), t.run);
    AdvanceUnended(Supply(s, Answer(s.policy)).(task := NoTask), t.run);
  }

  lemma StepUnended(s: State, t: Tick)
    requires Unended(s) && EndsNever(t.run)
    ensures Unended(Step(s, t))
  {
    var a := Arrive(s, t);
    if a.ready != [] {
      RuntimeUnended(Popped(a), t);
    }
  }

  /** Under every policy the drain is over only after the generator has ended: no event is taken
      for an end. */
  lemma {:induction false} OverOnlyAtEnd(policy: Policy, ticks: seq<Tick>)
    requires forall i | 0 <= i < |ticks| :: EndsNever(ticks[i].run)
    ensures Unended(Run(Start(policy), ticks))
  {
    if ticks != [] {
      OverOnlyAtEnd(policy, ticks[..|ticks| - 1]);
      StepUnended(Run(Start(policy), ticks[..|ticks| - 1]), ticks[|ticks| - 1]);
    }
  }

  // ---------- events that nobody holds ----------

  /** The consumer holds on to no event in this turn. */
  predicate HoldsNone(t: Tick) {
    !t.linger && forall i | 0 <= i < |t.run| :: t.run[i].Yields? ==> !t.run[i].linger
  }

  lemma {:induction false} DriveHandsOver(s: State, run: seq<Outcome>)
    requires !s.pc.Handling? && forall i | 0 <= i < |run| :: run[i].Yields? ==> !run[i].linger
    ensures !Drive(s, run).pc.Handling?
    decreases |run|
  {
    if run != [] && run[0].Yields? && !run[0].request {
      DriveHandsOver(Yielded(s, run[0].request), run[1..]);
    }
  }

  lemma RuntimeHandsOver(s: State, t: Tick)
    requires !s.pc.Handling? && HoldsNone(t)
    ensures !RunRuntime(s, t).pc.Handling?
  {
    DriveHandsOver(Received(s), t.run);
    DriveHandsOver(Received(Supply(s, t.user)), t.run);
    DriveHandsOver(Received(s.(task := NoTask)), t.run);
    DriveHandsOver(Received(Supply(s, Answer(s.policy)).(task := NoTask)), t.run);
  }

  lemma StepHandsOver(s: State, t: Tick)
    requires !s.pc.Handling? && HoldsNone(t)
    ensures !Step(s, t).pc.Handling?
  {
    var a := Arrive(s, t);
    if a.ready != [] {
      RuntimeHandsOver(Popped(a), t);
    }
  }

  /** Under every policy the drain waits for its consumer only when the consumer holds an event. */
  lemma {:induction false} HeldOnlyByConsumer(policy: Policy, ticks: seq<Tick>)
    requires forall i | 0 <= i < |ticks| :: HoldsNone(ticks[i])
    ensures !Run(Start(policy), ticks).pc.Handling?
  {
    if ticks != [] {
      HeldOnlyByConsumer(policy, ticks[..|ticks| - 1]);
      StepHandsOver(Run(Start(policy), ticks[..|ticks| - 1]), ticks[|ticks| - 1]);
    }
  }

  // ---------- the code ----------

  /** The invariant of the policy at hand. */
  predicate PolicyInv(s: State) {
    if s.policy.Shell? then ShellInv(s) else Inv(s)
  }

  lemma StepValid(s: State, t: Tick)
    ensures PolicyInv(s) ==> PolicyInv(Step(s, t))
  {
    PolicyFixed(s, t);
    if s.policy.Shell? && ShellInv(s) {
      ShellStepKeeps(s, t);
    } else if Inv(s) {
      StepKeeps(s, t);
    }
  }

  class EventLoop {
    const policy: Policy
    var ready: seq<Handle>
    var pc: Pc
    var gen: Generator
    var task: ResumeTask
    var parked: bool
    var asked: nat
    var answered: seq<bool>

    constructor (policy: Policy)
      ensures this.policy == policy && View() == Start(policy)
    {
      this.policy := policy;
      ready, pc, gen, task, parked, asked, answered := [Runtime], Draining, AtYield(false), NoTask, false, 0, [];
    }

    function View(): State
      reads this
    {
      State(policy, ready, pc, gen, task, parked, asked, answered)
    }

    predicate Valid()
      reads this
    {
      PolicyInv(View())
    }

    method SupplyToolApproval(decision: bool)
      modifies this
      ensures View() == Supply(old(View()), decision)
    {
      if gen == Waiting(None) {
        gen := Waiting(Some(decision));
        ready := ready + [if task.Live? then Resume else Runtime];
      }
    }

    method RequestApproval()
      modifies this
      ensures View() == Ask(old(View()))
    {
      if policy.Shell? {
        pc, parked := Paused, true;
      } else {
        task, pc := Live, Sleeping;
        ready := ready + [Resume, Runtime];
      }
    }

    method EnterOrLeaveWait() returns (entered: bool)
      modifies this
      ensures entered == (old(View()).gen == AtYield(true))
      ensures View() == if entered then old(View()).(gen := Waiting(None)) else Received(old(View()))
    {
      entered := gen == AtYield(true);
      if entered {
        gen := Waiting(None);
      } else if gen.Waiting? && gen.decision.Some? {
        answered := answered + [gen.decision.value];
      }
    }

    /** The loop of `_adrain_agent_events`, up to the point where it waits or returns. */
    method DrainAgentEvents(run: seq<Outcome>)
      modifies this
      ensures View() == Drive(old(View()), run)
    {
      var k := 0;
      while k < |run| && !run[k].Blocks?
        invariant 0 <= k <= |run|
        invariant Drive(View(), run[k..]) == Drive(old(View()), run)
        decreases |run| - k
      {
        assert run[k..][0] == run[k] && run[k..][1..] == run[k + 1..];
        if run[k].Ends? {
          gen, pc := Exhausted, Over;
          return;
        }
        gen := AtYield(run[k].request);
        asked := asked + if run[k].request then 1 else 0;
        if run[k].linger {
          pc, parked := Handling(run[k].request), true;
          return;
        }
        if run[k].request {
          RequestApproval();
          return;
        }
        k := k + 1;
      }
      gen, parked, pc := Working, true, Draining;
    }

    method NextEvent(run: seq<Outcome>)
      modifies this
      ensures View() == Advance(old(View()), run)
    {
      if gen == Waiting(None) {
        return;
      }
      if gen.Exhausted? {
        pc := Over;
        return;
      }
      var entered := EnterOrLeaveWait();
      if entered {
        pc := Draining;
      } else {
        DrainAgentEvents(run);
      }
    }

    method JoinResumeTask(t: Tick)
      modifies this
      ensures View() == JoinTask(old(View()), t)
    {
      if !task.Finished? {
        pc := Joining;
        return;
      }
      var item := task.item;
      task := NoTask;
      match item {
        case End => pc := Over;
        case Event(request) =>
          if t.linger {
            pc, parked := Handling(request), true;
          } else if request {
            RequestApproval();
          } else {
            NextEvent(t.run);
          }
      }
    }

    method RunRuntimeTask(t: Tick)
      modifies this
      ensures View() == RunRuntime(old(View()), t)
    {
      match pc {
        case Draining => NextEvent(t.run);
        case Handling(request) =>
          if request {
            RequestApproval();
          } else {
            NextEvent(t.run);
          }
        case Sleeping =>
          SupplyToolApproval(policy.Auto?);
          JoinResumeTask(t);
        case Joining => JoinResumeTask(t);
        case Paused =>
          SupplyToolApproval(t.user);
          NextEvent(t.run);
        case Over =>
      }
    }

    method FinishResumeTask(item: Item)
      modifies this
      ensures View() == Complete(old(View()), item)
    {
      task := Finished(item);
      if pc.Joining? {
        ready := ready + [Runtime];
      }
    }

    method RunResumeTask(t: Tick)
      modifies this
      ensures View() == RunResume(old(View()), t)
    {
      if !task.Live? || gen == Waiting(None) {
        return;
      }
      if gen.Exhausted? {
        FinishResumeTask(End);
        return;
      }
      var entered := EnterOrLeaveWait();
      if entered {
        return;
      }
      if t.run == [] || t.run[0].Blocks? {
        gen, parked := Working, true;
      } else if t.run[0].Ends? {
        gen := Exhausted;
        FinishResumeTask(End);
      } else {
        gen := AtYield(t.run[0].request);
        asked := asked + if t.run[0].request then 1 else 0;
        FinishResumeTask(Event(t.run[0].request));
      }
    }

    method Turn(t: Tick)
      modifies this
      ensures View() == Step(old(View()), t)
      ensures old(Valid()) ==> Valid()
    {
      StepValid(View(), t);
      RunTurn(t);
    }

    method RunTurn(t: Tick)
      modifies this
      ensures View() == Step(old(View()), t)
    {
      ready := ready + Others(t.others);
      if t.wake && parked {
        ready := ready + [if task.Live? then Resume else Runtime];
        parked := false;
      }
      if ready != [] {
        var front := ready[0];
        ready := ready[1..];
        match front {
          case Runtime => RunRuntimeTask(t);
          case Resume => RunResumeTask(t);
          case Other =>
        }
      }
    }
  }

  /** The event loop from its start: under an automatic policy every decision the agent has
      received is the policy's; under the shell policy it has received none. */
  method RunEventLoop(policy: Policy, ticks: seq<Tick>) returns (s: State)
    ensures s == Run(Start(policy), ticks)
    ensures if policy.Shell? then s.answered == []
            else forall i | 0 <= i < |s.answered| :: s.answered[i] <==> policy == Auto
  {
    var loop := new EventLoop(policy);
    StartValid(policy);
    for k := 0 to |ticks|
      invariant loop.Valid() && loop.View() == Run(Start(policy), ticks[..k])
    {
      assert ticks[..k + 1][..k] == ticks[..k];
      loop.Turn(ticks[k]);
    }
    assert ticks[..|ticks|] == ticks;
    s := loop.View();
  }

  lemma StartValid(policy: Policy)
    ensures PolicyInv(Start(policy))
  {
    if policy.Shell? {
      ShellRunKeeps([]);
    } else {
      RunKeeps(policy, []);
    }
  }
}
