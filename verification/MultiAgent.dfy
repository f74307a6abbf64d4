/** One sub-agent of the multi-agent manager as a concurrent protocol.

    Client calls run under the manager lock; each worker generation runs its own
    loop and takes the lock only for its state checks. Every event below is one
    atomic section of that code; the sections of all threads and clients may
    interleave in any order the lock allows. */
module MultiAgent {
  import opened Text

  datatype Status = PendingInit | Running | WaitingInput | Completed | Failed | TimedOut | Shutdown | NotFound

  datatype Item = Input(text: string) | Sentinel

  /** Where a worker thread is in `run_loop`. */
  datatype Pc =
    | Top                      // about to take the lock for the generation and stop checks
    | Poll                     // about to read `agent._queue`
    | Waiting(queue: nat)      // blocked in `get` on that queue object
    | Start(text: string)      // holds an input, about to take the lock
    | Work(text: string)       // inside the worker call
    | Final                    // left the loop, about to take the lock a last time
    | Returned                 // run_loop returned, thread still alive
    | Dead

  datatype Thread = Thread(generation: nat, pc: Pc)

  datatype Agent = Agent(
    status: Status,
    lastInput: string,
    lastOutput: string,
    lastError: string,
    taskCount: nat,
    stop: bool,                // `_stop_event.is_set()`
    queues: seq<seq<Item>>,    // every queue object the agent ever had
    queue: nat,                // `_queue`
    generation: nat,           // `_generation`
    threads: seq<Thread>,      // every thread started for the agent
    thread: Option<nat>,       // `_thread`
    closing: bool)             // a client holds the lock inside `thread.join`

  datatype Event =
    | Send(text: string)                     // send_input, or the submission of spawn_agent
    | Close                                  // first half of _shutdown_agent_unlocked
    | CloseDone                              // second half, after the join
    | Resume(override: Option<string>)
    | Check(t: nat)
    | ReadQueue(t: nat)
    | Take(t: nat)
    | TakeTimeout(t: nat)
    | Begin(t: nat)
    | Succeed(t: nat, output: string)
    | Fail(t: nat, error: string)
    | Finish(t: nat)
    | Die(t: nat)

  // ---------- the atomic sections ----------

  /** A `ManagedAgent` as its dataclass defaults build it: no thread yet. */
  function NewAgent(): Agent {
    Agent(PendingInit, "", "", "", 0, false, [[]], 0, 0, [], None, false)
  }

  /** A rehydrated agent: metadata only. */
  function LoadedAgent(status: Status, lastError: string, taskCount: nat): Agent {
    NewAgent().(status := status, lastError := lastError, taskCount := taskCount, stop := status == Shutdown)
  }

  function StartThread(a: Agent): Agent {
    a.(generation := a.generation + 1,
       threads := a.threads + [Thread(a.generation + 1, Top)],
       thread := Some(|a.threads|))
  }

  function Submit(a: Agent, text: string): Agent
    requires a.queue < |a.queues|
  {
    a.(status := PendingInit, lastInput := text,
       queues := a.queues[a.queue := a.queues[a.queue] + [Input(text)]])
  }

  /** `thread is not None and thread.is_alive()`. */
  predicate ThreadAlive(a: Agent) {
    a.thread.Some? && a.thread.value < |a.threads| && !a.threads[a.thread.value].pc.Dead?
  }

  predicate AcceptsInput(a: Agent) {
    !a.stop && a.status != Shutdown && ThreadAlive(a)
  }

  function BeginClose(a: Agent): Agent
    requires a.queue < |a.queues|
  {
    a.(stop := true, closing := true,
       queues := a.queues[a.queue := a.queues[a.queue] + [Sentinel]])
  }

  function EndClose(a: Agent): Agent {
    a.(status := Shutdown, closing := false)
  }

  predicate NeedsRestart(a: Agent) {
    a.status == Shutdown || a.stop || !ThreadAlive(a)
  }

  function Restart(a: Agent): Agent {
    StartThread(a.(stop := false, queues := a.queues + [[]], queue := |a.queues|, status := WaitingInput))
  }

  /** `resume_agent`. A blank override raises only after the restart has happened. */
  function ResumeAgent(a: Agent, override: Option<string>): Agent
    requires a.queue < |a.queues|
  {
    var b := if NeedsRestart(a) then Restart(a) else a;
    if override.Some? && Strip(override.value) != "" then Submit(b, Strip(override.value)) else b
  }

  predicate Current(a: Agent, t: nat)
    requires t < |a.threads|
  {
    a.threads[t].generation == a.generation
  }

  function Goto(a: Agent, t: nat, pc: Pc): Agent
    requires t < |a.threads|
  {
    a.(threads := a.threads[t := a.threads[t].(pc := pc)])
  }

  // ---------- the transition system ----------

  predicate LockFree(e: Event) {
    e.ReadQueue? || e.Take? || e.TakeTimeout? || e.Die?
  }

  /** Structure that every reachable agent has; it makes the sections well defined. */
  predicate Shape(a: Agent) {
    && a.queue + 1 == |a.queues|
    && a.generation == |a.threads|
    && a.thread == (if a.threads == [] then None else Some(|a.threads| - 1))
    && (forall t | 0 <= t < |a.threads| :: a.threads[t].generation == t + 1)
    && (forall t | 0 <= t < |a.threads| :: a.threads[t].pc.Waiting? ==> a.threads[t].pc.queue < |a.queues|)
  }

  /** The program counter of thread `t`; a thread never started counts as dead. */
  function PcOf(a: Agent, t: nat): Pc {
    if t < |a.threads| then a.threads[t].pc else Dead
  }

  predicate Enabled(a: Agent, e: Event)
    requires Shape(a)
  {
    && (e.CloseDone? || LockFree(e) || !a.closing)
    && match e
       case Send(text) => AcceptsInput(a)
       case Close => true
       case CloseDone => a.closing
       case Resume(_) => true
       case Check(t) => PcOf(a, t).Top?
       case ReadQueue(t) => PcOf(a, t).Poll?
       case Take(t) => PcOf(a, t).Waiting? && a.queues[a.threads[t].pc.queue] != []
       case TakeTimeout(t) => PcOf(a, t).Waiting? && a.queues[a.threads[t].pc.queue] == []
       case Begin(t) => PcOf(a, t).Start?
       case Succeed(t, _) => PcOf(a, t).Work?
       case Fail(t, _) => PcOf(a, t).Work?
       case Finish(t) => PcOf(a, t).Final?
       case Die(t) => PcOf(a, t).Returned?
  }

  function CheckNext(a: Agent, t: nat): Agent
    requires t < |a.threads|
  {
    Goto(a, t, if !Current(a, t) then Returned else if a.stop then Final else Poll)
  }

  function TakeNext(a: Agent, t: nat): Agent
    requires Shape(a) && Enabled(a, Take(t))
  {
    var q := a.threads[t].pc.queue;
    var item := a.queues[q][0];
    Goto(a.(queues := a.queues[q := a.queues[q][1..]]), t, if item.Sentinel? then Final else Start(item.text))
  }

  function BeginNext(a: Agent, t: nat): Agent
    requires t < |a.threads| && a.threads[t].pc.Start?
  {
    if Current(a, t) then Goto(a.(status := Running), t, Work(a.threads[t].pc.text)) else Goto(a, t, Returned)
  }

  function SucceedNext(a: Agent, t: nat, output: string): Agent
    requires t < |a.threads|
  {
    if Current(a, t) then
      Goto(a.(lastOutput := output, lastError := "", taskCount := a.taskCount + 1, status := Completed), t, Top)
    else Goto(a, t, Returned)
  }

  function FailNext(a: Agent, t: nat, error: string): Agent
    requires t < |a.threads|
  {
    if Current(a, t) then Goto(a.(lastError := error, status := Failed), t, Top) else Goto(a, t, Returned)
  }

  function FinishNext(a: Agent, t: nat): Agent
    requires t < |a.threads|
  {
    if Current(a, t) && a.status != Failed then Goto(a.(status := Shutdown), t, Returned) else Goto(a, t, Returned)
  }

  function Next(a: Agent, e: Event): Agent
    requires Shape(a) && Enabled(a, e)
  {
    match e
    case Send(text) => Submit(a, text)
    case Close => BeginClose(a)
    case CloseDone => EndClose(a)
    case Resume(override) => ResumeAgent(a, override)
    case Check(t) => CheckNext(a, t)
    case ReadQueue(t) => Goto(a, t, Waiting(a.queue))
    case Take(t) => TakeNext(a, t)
    case TakeTimeout(t) => Goto(a, t, Top)
    case Begin(t) => BeginNext(a, t)
    case Succeed(t, output) => SucceedNext(a, t, output)
    case Fail(t, error) => FailNext(a, t, error)
    case Finish(t) => FinishNext(a, t)
    case Die(t) => Goto(a, t, Dead)
  }

  lemma GotoShape(a: Agent, t: nat, pc: Pc)
    requires Shape(a) && t < |a.threads| && (pc.Waiting? ==> pc.queue < |a.queues|)
    ensures Shape(Goto(a, t, pc))
  {
  }

  lemma ResumeShape(a: Agent, override: Option<string>)
    requires Shape(a)
    ensures Shape(ResumeAgent(a, override))
  {
  }

  lemma ThreadShape(a: Agent, e: Event)
    requires Shape(a) && Enabled(a, e) && !e.Send? && !e.Close? && !e.CloseDone? && !e.Resume?
    ensures Shape(Next(a, e))
  {
    match e
    case Check(t) => GotoShape(a, t, if !Current(a, t) then Returned else if a.stop then Final else Poll);
    case ReadQueue(t) => GotoShape(a, t, Waiting(a.queue));
    case _ =>
  }

  lemma ShapeKept(a: Agent, e: Event)
    requires Shape(a) && Enabled(a, e)
    ensures Shape(Next(a, e))
  {
    match e
    case Send(text) =>
    case Close =>
    case CloseDone =>
    case Resume(override) => ResumeShape(a, override);
    case _ => ThreadShape(a, e);
  }

}
