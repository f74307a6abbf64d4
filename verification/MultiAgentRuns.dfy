/** What holds of one sub-agent in every interleaving of clients and worker threads. */
module MultiAgentRuns {
  import opened Text
  import opened MultiAgent

  /** `spawn_agent`: build the agent, start its first thread and submit the task in one lock section. */
  function Spawned(text: string): Agent {
    Submit(StartThread(NewAgent()), text)
  }

  ghost predicate Origin(a: Agent) {
    || (exists text :: a == Spawned(text))
    || (exists status, error, count :: a == LoadedAgent(status, error, count))
  }

  /** The agent after a sequence of events, or `None` when one of them was not possible. */
  function Run(a: Agent, es: seq<Event>): (r: Option<Agent>)
    requires Shape(a)
    ensures r.Some? ==> Shape(r.value)
  {
    if es == [] then Some(a)
    else
      var before, e := Run(a, es[..|es| - 1]), es[|es| - 1];
      if before.Some? && Enabled(before.value, e) then
        ShapeKept(before.value, e);
        Some(Next(before.value, e))
      else None
  }

  // ---------- the invariant ----------

  /** Inputs first, then sentinels. */
  predicate InputsThenSentinels(q: seq<Item>) {
    forall i, j | 0 <= i < j < |q| :: q[i].Sentinel? ==> q[j].Sentinel?
  }

  predicate NoSentinel(q: seq<Item>) {
    forall i | 0 <= i < |q| :: !q[i].Sentinel?
  }

  predicate QueueInv(a: Agent)
    requires Shape(a)
  {
    && (forall k | 0 <= k < |a.queues| :: InputsThenSentinels(a.queues[k]))
    && (!a.stop ==> NoSentinel(a.queues[a.queue]))
    && (a.closing ==> a.stop)
  }

  predicate ThreadInv(a: Agent)
    requires Shape(a)
  {
    a.threads != [] ==>
      var pc := a.threads[|a.threads| - 1].pc;
      && (pc.Waiting? ==> pc.queue == a.queue)
      && (pc.Final? ==> a.stop)
      && (pc.Returned? || pc.Dead? ==> a.stop && (a.status == Failed || a.status == Shutdown))
  }

  predicate Inv(a: Agent) {
    Shape(a) && QueueInv(a) && ThreadInv(a)
  }

  lemma QueueInvKept(a: Agent, e: Event)
    requires Inv(a) && Enabled(a, e)
    ensures Shape(Next(a, e)) && QueueInv(Next(a, e))
  {
    var b := Next(a, e);
    ShapeKept(a, e);
    forall k | 0 <= k < |b.queues| ensures InputsThenSentinels(b.queues[k]) {
      if k < |a.queues| {
        assert InputsThenSentinels(a.queues[k]);
      }
    }
  }

  lemma InvKept(a: Agent, e: Event)
    requires Inv(a) && Enabled(a, e)
    ensures Inv(Next(a, e))
  {
    QueueInvKept(a, e);
  }

  lemma OriginInv(a: Agent)
    requires Origin(a)
    ensures Inv(a)
  {
  }

  lemma {:induction false} RunInv(a: Agent, es: seq<Event>)
    requires Origin(a) && Shape(a) && Run(a, es).Some?
    ensures Inv(Run(a, es).value)
  {
    if es == [] {
      OriginInv(a);
    } else {
      RunInv(a, es[..|es| - 1]);
      InvKept(Run(a, es[..|es| - 1]).value, es[|es| - 1]);
    }
  }

  // ---------- generations ----------

  /** The thread an event belongs to; client events belong to none. */
  function ThreadOf(e: Event): Option<nat> {
    if e.Send? || e.Close? || e.CloseDone? || e.Resume? then None else Some(e.t)
  }

  /** Whether an event starts a worker call. */
  predicate BeginsCall(a: Agent, e: Event)
    requires Shape(a) && Enabled(a, e)
  {
    e.Begin? && Current(a, e.t)
  }

  /** A superseded thread changes no status, output, error or task count and begins no call. */
  lemma StaleThreadInert(a: Agent, e: Event)
    requires Shape(a) && Enabled(a, e)
    requires ThreadOf(e).Some? && ThreadOf(e).value < |a.threads| && !Current(a, ThreadOf(e).value)
    ensures Next(a, e).(queues := a.queues, threads := a.threads) == a
    ensures !BeginsCall(a, e)
    ensures PcOf(Next(a, e), ThreadOf(e).value).Work? ==> PcOf(a, ThreadOf(e).value).Work?
  {
  }

  lemma CurrentIsLast(b: Agent, t: nat)
    requires Inv(b) && t < |b.threads| && Current(b, t)
    ensures b.thread == Some(t)
    ensures PcOf(b, t).Returned? || PcOf(b, t).Dead? ==> b.stop && (b.status == Failed || b.status == Shutdown)
  {
    assert b.threads[t].generation == t + 1;
  }

  /** At most one thread is current, and once it has left its loop the agent is stopped. */
  lemma CurrentThread(a: Agent, es: seq<Event>, b: Agent, t: nat)
    requires Origin(a) && Shape(a) && Run(a, es) == Some(b)
    requires t < |b.threads| && Current(b, t)
    ensures b.thread == Some(t)
    ensures PcOf(b, t).Returned? || PcOf(b, t).Dead? ==> b.stop && (b.status == Failed || b.status == Shutdown)
  {
    RunInv(a, es);
    CurrentIsLast(b, t);
  }

  /** Every queue object holds inputs and then sentinels, and no sentinel waits in the
      current queue of an agent that has not been told to stop. */
  lemma QueueShape(a: Agent, es: seq<Event>, b: Agent)
    requires Origin(a) && Shape(a) && Run(a, es) == Some(b)
    ensures forall k | 0 <= k < |b.queues| :: InputsThenSentinels(b.queues[k])
    ensures !b.stop ==> NoSentinel(b.queues[b.queue])
  {
    RunInv(a, es);
  }

  // ---------- worker calls after a stop ----------

  /** Worker calls begun since the stop flag was last set. */
  function CallsSinceStop(a: Agent, es: seq<Event>): nat
    requires Shape(a) && Run(a, es).Some?
  {
    if es == [] || !Run(a, es).value.stop then 0
    else
      var before, e := Run(a, es[..|es| - 1]).value, es[|es| - 1];
      CallsSinceStop(a, es[..|es| - 1]) + if BeginsCall(before, e) then 1 else 0
  }

  /** The current thread can still reach a worker call without passing the stop check. */
  predicate PastStopCheck(a: Agent)
    requires Shape(a)
  {
    a.threads != [] && (var pc := a.threads[|a.threads| - 1].pc; pc.Poll? || pc.Waiting? || pc.Start?)
  }

  lemma {:induction false} CallBudget(a: Agent, es: seq<Event>)
    requires Origin(a) && Shape(a) && Run(a, es).Some?
    ensures var b := Run(a, es).value;
            b.stop ==> CallsSinceStop(a, es) + (if PastStopCheck(b) then 1 else 0) <= 1
  {
    if es == [] {
      OriginInv(a);
    } else {
      var front, e := es[..|es| - 1], es[|es| - 1];
      CallBudget(a, front);
      RunInv(a, front);
      CallBudgetStep(Run(a, front).value, e, CallsSinceStop(a, front));
    }
  }

  lemma CallBudgetStep(a: Agent, e: Event, calls: nat)
    requires Inv(a) && Enabled(a, e)
    requires a.stop ==> calls + (if PastStopCheck(a) then 1 else 0) <= 1
    requires !a.stop ==> calls == 0
    ensures var b := Next(a, e);
            && Shape(b)
            && (b.stop ==> calls + (if BeginsCall(a, e) then 1 else 0) + (if PastStopCheck(b) then 1 else 0) <= 1)
  {
    InvKept(a, e);
  }

  /** After the stop flag is set, at most one further worker call begins in that generation. */
  lemma OneCallAfterStop(a: Agent, es: seq<Event>)
    requires Origin(a) && Shape(a) && Run(a, es).Some?
    ensures CallsSinceStop(a, es) <= 1
  {
    CallBudget(a, es);
  }

  // ---------- conservation of inputs ----------

  /** Which inputs are counted: those with one text, or all of them. */
  predicate Matches(which: Option<string>, text: string) {
    which.None? || which.value == text
  }

  function One(which: Option<string>, text: string): nat {
    if Matches(which, text) then 1 else 0
  }

  datatype Ledger = Ledger(submitted: nat, succeeded: nat, failed: nat, stale: nat)

  function Account(a: Agent, e: Event, l: Ledger, w: Option<string>): Ledger
    requires Shape(a) && Enabled(a, e)
  {
    match e
    case Send(text) => l.(submitted := l.submitted + One(w, text))
    case Resume(Some(text)) =>
      if Strip(text) != "" then l.(submitted := l.submitted + One(w, Strip(text))) else l
    case Begin(t) =>
      if Current(a, t) then l else l.(stale := l.stale + One(w, a.threads[t].pc.text))
    case Succeed(t, _) =>
      var n := One(w, a.threads[t].pc.text);
      if Current(a, t) then l.(succeeded := l.succeeded + n) else l.(stale := l.stale + n)
    case Fail(t, _) =>
      var n := One(w, a.threads[t].pc.text);
      if Current(a, t) then l.(failed := l.failed + n) else l.(stale := l.stale + n)
    case _ => l
  }

  /** What a run has done with the counted inputs; a spawned agent starts with one submitted. */
  function Tally(a: Agent, es: seq<Event>, w: Option<string>): Ledger
    requires Shape(a) && Run(a, es).Some?
  {
    if es == [] then Ledger(Queued(a, w), 0, 0, 0)
    else Account(Run(a, es[..|es| - 1]).value, es[|es| - 1], Tally(a, es[..|es| - 1], w), w)
  }

  function InItem(item: Item, w: Option<string>): nat {
    if item.Input? then One(w, item.text) else 0
  }

  function InQueue(q: seq<Item>, w: Option<string>): nat {
    if q == [] then 0 else InQueue(q[..|q| - 1], w) + InItem(q[|q| - 1], w)
  }

  function InQueues(qs: seq<seq<Item>>, w: Option<string>): nat {
    if qs == [] then 0 else InQueues(qs[..|qs| - 1], w) + InQueue(qs[|qs| - 1], w)
  }

  /** Inputs in the queue the agent uses now. */
  function Queued(a: Agent, w: Option<string>): nat
    requires Shape(a)
  {
    InQueue(a.queues[a.queue], w)
  }

  /** Inputs left in queues that a resume replaced. */
  function Discarded(a: Agent, w: Option<string>): nat
    requires Shape(a)
  {
    InQueues(a.queues[..a.queue], w)
  }

  function HeldBy(pc: Pc, w: Option<string>): nat {
    if pc.Start? || pc.Work? then One(w, pc.text) else 0
  }

  /** Inputs that some thread has taken and not settled. */
  function Held(ts: seq<Thread>, w: Option<string>): nat {
    if ts == [] then 0 else Held(ts[..|ts| - 1], w) + HeldBy(ts[|ts| - 1].pc, w)
  }

  lemma {:induction false} HeldUpdate(ts: seq<Thread>, t: nat, th: Thread, w: Option<string>)
    requires t < |ts|
    ensures Held(ts[t := th], w) == Held(ts, w) - HeldBy(ts[t].pc, w) + HeldBy(th.pc, w)
  {
    var us := ts[t := th];
    if t < |ts| - 1 {
      HeldUpdate(ts[..|ts| - 1], t, th, w);
      assert us[..|us| - 1] == ts[..|ts| - 1][t := th];
    } else {
      assert us[..|us| - 1] == ts[..|ts| - 1];
    }
  }

  lemma {:induction false} QueueUpdate(qs: seq<seq<Item>>, k: nat, q: seq<Item>, w: Option<string>)
    requires k < |qs|
    ensures InQueues(qs[k := q], w) == InQueues(qs, w) - InQueue(qs[k], w) + InQueue(q, w)
  {
    var rs := qs[k := q];
    if k < |qs| - 1 {
      QueueUpdate(qs[..|qs| - 1], k, q, w);
      assert rs[..|rs| - 1] == qs[..|qs| - 1][k := q];
    } else {
      assert rs[..|rs| - 1] == qs[..|qs| - 1];
    }
  }

  lemma {:induction false} QueueHead(q: seq<Item>, w: Option<string>)
    requires q != []
    ensures InQueue(q, w) == InItem(q[0], w) + InQueue(q[1..], w)
  {
    if |q| > 1 {
      QueueHead(q[..|q| - 1], w);
      assert q[1..][..|q| - 2] == q[..|q| - 1][1..];
    } else {
      assert q[..0] == [];
    }
  }

  lemma PutCount(a: Agent, item: Item, w: Option<string>)
    requires a.queue < |a.queues|
    ensures InQueues(a.queues[a.queue := a.queues[a.queue] + [item]], w) == InQueues(a.queues, w) + InItem(item, w)
  {
    var q := a.queues[a.queue];
    QueueUpdate(a.queues, a.queue, q + [item], w);
    assert (q + [item])[..|q|] == q;
  }

  lemma TakeCount(a: Agent, t: nat, w: Option<string>)
    requires Shape(a) && Enabled(a, Take(t))
    ensures InFlight(TakeNext(a, t), w) == InFlight(a, w)
  {
    var k := a.threads[t].pc.queue;
    QueueUpdate(a.queues, k, a.queues[k][1..], w);
    QueueHead(a.queues[k], w);
    HeldUpdate(a.threads, t, TakeNext(a, t).threads[t], w);
  }

  lemma RestartCount(a: Agent, w: Option<string>)
    ensures InFlight(Restart(a), w) == InFlight(a, w)
  {
    var b := Restart(a);
    assert b.queues[..|a.queues|] == a.queues && b.threads[..|a.threads|] == a.threads;
  }

  lemma ResumeCount(a: Agent, override: Option<string>, w: Option<string>)
    requires Shape(a)
    ensures InFlight(ResumeAgent(a, override), w) == InFlight(a, w)
            + (if override.Some? && Strip(override.value) != "" then One(w, Strip(override.value)) else 0)
  {
    var b := if NeedsRestart(a) then Restart(a) else a;
    RestartCount(a, w);
    if override.Some? {
      PutCount(b, Input(Strip(override.value)), w);
    }
  }

  /** Counted inputs in some queue or held by some thread. */
  function InFlight(a: Agent, w: Option<string>): nat {
    InQueues(a.queues, w) + Held(a.threads, w)
  }

  function Settled(l: Ledger): nat {
    l.succeeded + l.failed + l.stale
  }

  /** A step of one thread that touches no queue moves at most that thread's own input. */
  lemma ThreadCount(a: Agent, e: Event, t: nat, w: Option<string>)
    requires Shape(a) && Enabled(a, e) && ThreadOf(e) == Some(t) && !e.Take?
    ensures InFlight(Next(a, e), w) == InFlight(a, w) - HeldBy(PcOf(a, t), w) + HeldBy(PcOf(Next(a, e), t), w)
  {
    HeldUpdate(a.threads, t, Next(a, e).threads[t], w);
  }

  /** The input such a step lets go of is the one it settles. */
  lemma ThreadAccount(a: Agent, e: Event, t: nat, l: Ledger, w: Option<string>)
    requires Shape(a) && Enabled(a, e) && ThreadOf(e) == Some(t) && !e.Take?
    ensures Account(a, e, l, w).submitted == l.submitted
    ensures Settled(Account(a, e, l, w)) + HeldBy(PcOf(Next(a, e), t), w) == Settled(l) + HeldBy(PcOf(a, t), w)
  {
  }

  lemma FlightKept(a: Agent, e: Event, l: Ledger, w: Option<string>)
    requires Shape(a) && Enabled(a, e)
    requires l.submitted == InFlight(a, w) + Settled(l)
    ensures Account(a, e, l, w).submitted == InFlight(Next(a, e), w) + Settled(Account(a, e, l, w))
  {
    if ThreadOf(e).Some? && !e.Take? {
      ThreadCount(a, e, e.t, w);
      ThreadAccount(a, e, e.t, l, w);
    } else {
      match e
      case Send(text) => PutCount(a, Input(text), w);
      case Close => PutCount(a, Sentinel, w);
      case CloseDone =>
      case Resume(override) => ResumeCount(a, override, w);
      case Take(t) => TakeCount(a, t, w);
    }
  }

  lemma OriginFlight(a: Agent, w: Option<string>)
    requires Shape(a) && |a.queues| == 1 && |a.threads| <= 1
    requires a.threads != [] ==> HeldBy(a.threads[0].pc, w) == 0
    ensures InFlight(a, w) == Queued(a, w)
  {
    assert a.queues[..0] == [] && a.threads[..0] == [];
    assert InQueues(a.queues, w) == InQueues([], w) + InQueue(a.queues[0], w);
    if a.threads != [] {
      assert Held(a.threads, w) == Held([], w) + HeldBy(a.threads[0].pc, w);
    }
  }

  lemma {:induction false} TallyBalanced(a: Agent, es: seq<Event>, w: Option<string>)
    requires Origin(a) && Shape(a) && Run(a, es).Some?
    ensures Tally(a, es, w).submitted == InFlight(Run(a, es).value, w) + Settled(Tally(a, es, w))
  {
    if es == [] {
      OriginFlight(a, w);
    } else {
      TallyBalanced(a, es[..|es| - 1], w);
      FlightKept(Run(a, es[..|es| - 1]).value, es[|es| - 1], Tally(a, es[..|es| - 1], w), w);
    }
  }

  lemma {:induction false} TasksCounted(a: Agent, es: seq<Event>)
    requires Shape(a) && Run(a, es).Some?
    ensures Run(a, es).value.taskCount == a.taskCount + Tally(a, es, None).succeeded
  {
    if es != [] {
      TasksCounted(a, es[..|es| - 1]);
      TaskStep(Run(a, es[..|es| - 1]).value, es[|es| - 1], Tally(a, es[..|es| - 1], None));
    }
  }

  lemma TaskStep(a: Agent, e: Event, l: Ledger)
    requires Shape(a) && Enabled(a, e)
    ensures Next(a, e).taskCount - a.taskCount == Account(a, e, l, None).succeeded - l.succeeded
  {
  }

  /** Conservation: at every moment of every run each submitted input, counted by its text,
      is queued, held by a thread, succeeded, failed, discarded by a resume or dropped by a
      superseded thread; and the task count is its initial value plus the successes. */
  lemma InputsConserved(a: Agent, es: seq<Event>, b: Agent, w: Option<string>)
    requires Origin(a) && Shape(a) && Run(a, es) == Some(b)
    ensures var l := Tally(a, es, w);
            l.submitted == Queued(b, w) + Held(b.threads, w) + l.succeeded + l.failed + Discarded(b, w) + l.stale
    ensures b.taskCount == a.taskCount + Tally(a, es, None).succeeded
  {
    TallyBalanced(a, es, w);
    TasksCounted(a, es);
    assert b.queues[..|b.queues| - 1] == b.queues[..b.queue];
  }

  // ---------- what can be lost, and what cannot ----------

  /** An agent that was never restarted loses nothing: the two losing places of the
      conservation law stay empty through its first generation. */
  lemma {:induction false} NothingLostBeforeRestart(a: Agent, es: seq<Event>, b: Agent, w: Option<string>)
    requires Origin(a) && Shape(a) && Run(a, es) == Some(b)
    requires b.generation <= 1
    ensures Discarded(b, w) == 0 && Tally(a, es, w).stale == 0
    ensures b.generation == 0 ==> Queued(b, w) == 0
  {
    if es == [] {
      assert a.queues[..0] == [];
    } else {
      var front, e := es[..|es| - 1], es[|es| - 1];
      var c := Run(a, front).value;
      assert c.generation <= b.generation;
      NothingLostBeforeRestart(a, front, c, w);
      FirstGenerationStep(c, e, Tally(a, front, w), w);
    }
  }

  lemma FirstGenerationStep(a: Agent, e: Event, l: Ledger, w: Option<string>)
    requires Shape(a) && Enabled(a, e) && Next(a, e).generation <= 1
    requires Discarded(a, w) == 0 && l.stale == 0
    requires a.generation == 0 ==> Queued(a, w) == 0
    ensures Shape(Next(a, e))
    ensures Discarded(Next(a, e), w) == 0 && Account(a, e, l, w).stale == 0
    ensures Next(a, e).generation == 0 ==> Queued(Next(a, e), w) == 0
  {
    ShapeKept(a, e);
    var b := Next(a, e);
    var q := a.queues[a.queue];
    if b.queue == a.queue {
      if e.Take? && a.threads[e.t].pc.queue < a.queue {
        var k := a.threads[e.t].pc.queue;
        QueueUpdate(a.queues[..a.queue], k, a.queues[k][1..], w);
        assert b.queues[..b.queue] == a.queues[..a.queue][k := a.queues[k][1..]];
        QueueHead(a.queues[k], w);
      } else {
        assert b.queues[..b.queue] == a.queues[..a.queue];
      }
      assert (q + [Sentinel])[..|q|] == q;
    } else {
      assert b.queues[..b.queue] == a.queues;
      assert a.queues[..|a.queues| - 1] == a.queues[..a.queue];
    }
  }

  lemma Extend(a: Agent, es: seq<Event>, b: Agent, l: Ledger, e: Event, w: Option<string>) returns (fs: seq<Event>)
    requires Shape(a) && Run(a, es) == Some(b) && Tally(a, es, w) == l && Enabled(b, e)
    ensures fs == es + [e]
    ensures Run(a, fs) == Some(Next(b, e)) && Tally(a, fs, w) == Account(b, e, l, w)
  {
    fs := es + [e];
    assert fs[..|es|] == es;
  }

  /** After a restart an accepted input can be lost, whatever it is: the superseded thread,
      still polling, takes it from the new generation's queue and drops it. */
  lemma AcceptedInputCanBeDropped(task: string, input: string) returns (es: seq<Event>)
    requires input != task && input != "" && Strip(input) == input
    ensures es == [Check(0), Close, CloseDone, Resume(Some(input)), ReadQueue(0), Take(0), Begin(0)]
    ensures Shape(Spawned(task)) && Run(Spawned(task), es).Some?
    ensures Tally(Spawned(task), es, Some(input)) == Ledger(1, 0, 0, 1)
  {
    var a := Spawned(task);
    var f;
    es, f := RaceSetUp(task, input);
    es := RaceLost(a, es, f, input);
  }

  lemma RaceLost(a: Agent, es: seq<Event>, f: Agent, input: string) returns (fs: seq<Event>)
    requires Shape(a) && Run(a, es) == Some(f) && Tally(a, es, Some(input)) == Ledger(1, 0, 0, 0)
    requires f.threads == [Thread(1, Poll), Thread(2, Top)] && !f.closing
    requires f.queue == 1 && f.queues[1] == [Input(input)]
    ensures fs == es + [ReadQueue(0), Take(0), Begin(0)]
    ensures Run(a, fs).Some? && Tally(a, fs, Some(input)) == Ledger(1, 0, 0, 1)
  {
    var w, one := Some(input), Ledger(1, 0, 0, 0);
    fs := Extend(a, es, f, one, ReadQueue(0), w);
    var g := Goto(f, 0, Waiting(1));
    assert Next(f, ReadQueue(0)) == g && g.threads[0] == Thread(1, Waiting(1));
    fs := Extend(a, fs, g, one, Take(0), w);
    var h := TakeNext(g, 0);
    assert Shape(h) && h.threads[0] == Thread(1, Start(input)) && h.generation == 2;
    assert Account(h, Begin(0), one, w) == Ledger(1, 0, 0, 1);
    fs := Extend(a, fs, h, one, Begin(0), w);
    assert es + [ReadQueue(0)] + [Take(0)] + [Begin(0)] == es + [ReadQueue(0), Take(0), Begin(0)];
  }

  lemma RaceSetUp(task: string, input: string) returns (es: seq<Event>, f: Agent)
    requires input != task && input != "" && Strip(input) == input
    ensures Shape(Spawned(task)) && Run(Spawned(task), es) == Some(f)
    ensures Tally(Spawned(task), es, Some(input)) == Ledger(1, 0, 0, 0)
    ensures es == [Check(0), Close, CloseDone, Resume(Some(input))]
    ensures f.threads == [Thread(1, Poll), Thread(2, Top)] && !f.closing
    ensures f.queue == 1 && f.queues[1] == [Input(input)]
  {
    var a, w, zero := Spawned(task), Some(input), Ledger(0, 0, 0, 0);
    assert a.queues[0] == [Input(task)] && a.queues[0][..0] == [];
    assert InQueue(a.queues[0], w) == InQueue([], w) + InItem(Input(task), w) == 0;
    es := Extend(a, [], a, zero, Check(0), w);
    var b := Goto(a, 0, Poll);
    es := Extend(a, es, b, zero, Close, w);
    es := Extend(a, es, BeginClose(b), zero, CloseDone, w);
    var d := EndClose(BeginClose(b));
    es := Extend(a, es, d, zero, Resume(Some(input)), w);
    f := Submit(Restart(d), input);
  }

  // ---------- order ----------

  function Submitted(override: Option<string>): seq<Item> {
    if override.Some? && Strip(override.value) != "" then [Input(Strip(override.value))] else []
  }

  function PutsNext(a: Agent, e: Event, puts: seq<Item>): seq<Item> {
    match e
    case Send(text) => puts + [Input(text)]
    case Close => puts + [Sentinel]
    case Resume(override) => (if NeedsRestart(a) then [] else puts) + Submitted(override)
    case _ => puts
  }

  function TakesNext(a: Agent, e: Event, takes: seq<Item>): seq<Item>
    requires Shape(a) && Enabled(a, e)
  {
    match e
    case Take(t) =>
      var q := a.threads[t].pc.queue;
      if q == a.queue then takes + [a.queues[q][0]] else takes
    case Resume(_) => if NeedsRestart(a) then [] else takes
    case _ => takes
  }

  /** Everything ever put into the queue object that is current now. */
  function Puts(a: Agent, es: seq<Event>): seq<Item>
    requires Shape(a) && Run(a, es).Some?
  {
    if es == [] then a.queues[a.queue]
    else
      PutsNext(Run(a, es[..|es| - 1]).value, es[|es| - 1], Puts(a, es[..|es| - 1]))
  }

  /** Everything any thread has taken from the queue object that is current now. */
  function Takes(a: Agent, es: seq<Event>): seq<Item>
    requires Shape(a) && Run(a, es).Some?
  {
    if es == [] then []
    else
      TakesNext(Run(a, es[..|es| - 1]).value, es[|es| - 1], Takes(a, es[..|es| - 1]))
  }

  /** Items leave the current queue in the order they entered it. */
  lemma {:induction false} FirstInFirstOut(a: Agent, es: seq<Event>, b: Agent)
    requires Shape(a) && Run(a, es) == Some(b)
    ensures Puts(a, es) == Takes(a, es) + b.queues[b.queue]
  {
    if es == [] {
      Unit(a.queues[a.queue]);
    } else {
      var front, e := es[..|es| - 1], es[|es| - 1];
      var c := Run(a, front).value;
      FirstInFirstOut(a, front, c);
      OrderStep(c, e, Puts(a, front), Takes(a, front));
    }
  }

  lemma OrderStep(a: Agent, e: Event, puts: seq<Item>, takes: seq<Item>)
    requires Shape(a) && Enabled(a, e) && puts == takes + a.queues[a.queue]
    ensures var b := Next(a, e); Shape(b) && PutsNext(a, e, puts) == TakesNext(a, e, takes) + b.queues[b.queue]
  {
    ShapeKept(a, e);
    var q := a.queues[a.queue];
    match e
    case Send(text) => Assoc(takes, q, [Input(text)]);
    case Close => Assoc(takes, q, [Sentinel]);
    case Resume(override) =>
      Assoc(takes, q, Submitted(override));
      Unit(Submitted(override));
      Unit(puts);
      Unit(q);
    case Take(t) =>
      if q != [] {
        Assoc(takes, [q[0]], q[1..]);
        assert q == [q[0]] + q[1..];
      }
    case _ =>
  }
}
