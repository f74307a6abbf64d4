/** When a sub-agent loses inputs, exactly, and how a caller of resume avoids it. */
module MultiAgentLoss {
  import opened Text
  import opened MultiAgent
  import opened MultiAgentRuns

  /** The one kind of step that supersedes a thread and replaces a queue. */
  predicate Restarts(a: Agent, e: Event) {
    e.Resume? && NeedsRestart(a)
  }

  predicate NoRestart(a: Agent, es: seq<Event>)
    requires Shape(a) && Run(a, es).Some?
  {
    es == [] ||
    (NoRestart(a, es[..|es| - 1]) && !Restarts(Run(a, es[..|es| - 1]).value, es[|es| - 1]))
  }

  predicate Superseded(a: Agent, t: nat) {
    t + 1 < |a.threads|
  }

  /** An agent that has not been stopped is not shut down. */
  predicate LossInv(a: Agent) {
    Inv(a) && (!a.stop ==> a.status != Shutdown)
  }

  lemma LossInvKept(a: Agent, e: Event)
    requires LossInv(a) && Enabled(a, e)
    ensures LossInv(Next(a, e))
  {
    InvKept(a, e);
  }

  lemma {:induction false} RunLossInv(a: Agent, es: seq<Event>)
    requires Origin(a) && Shape(a) && Run(a, es).Some?
    ensures LossInv(Run(a, es).value)
  {
    if es == [] {
      OriginInv(a);
    } else {
      RunLossInv(a, es[..|es| - 1]);
      LossInvKept(Run(a, es[..|es| - 1]).value, es[|es| - 1]);
    }
  }

  // ---------- doomed inputs ----------

  function HeldStale(ts: seq<Thread>, w: Option<string>): nat {
    if ts == [] then 0 else Held(ts[..|ts| - 1], w)
  }

  function HeldNow(ts: seq<Thread>, w: Option<string>): nat {
    if ts == [] then 0 else HeldBy(ts[|ts| - 1].pc, w)
  }

  /** Inputs that can no longer be worked on: left in replaced queues, held by superseded
      threads, or already dropped by one. */
  function Doomed(a: Agent, l: Ledger, w: Option<string>): nat
    requires Shape(a)
  {
    Discarded(a, w) + HeldStale(a.threads, w) + l.stale
  }

  /** A superseded thread takes from the queue in use. */
  predicate Steals(a: Agent, e: Event)
    requires Shape(a) && Enabled(a, e)
  {
    e.Take? && Superseded(a, e.t) && a.threads[e.t].pc.queue == a.queue
  }

  predicate StealsInput(a: Agent, e: Event)
    requires Shape(a) && Enabled(a, e)
  {
    Steals(a, e) && a.queues[a.queue][0].Input?
  }

  /** What one step dooms: a restart the inputs queued and held, a theft the input stolen. */
  function NewlyDoomed(a: Agent, e: Event, w: Option<string>): nat
    requires Shape(a) && Enabled(a, e)
  {
    if Restarts(a, e) then Queued(a, w) + HeldNow(a.threads, w)
    else if Steals(a, e) then InItem(a.queues[a.queue][0], w)
    else 0
  }

  lemma OldQueuesKept(a: Agent, b: Agent, l: Ledger, m: Ledger, w: Option<string>)
    requires Shape(a) && Shape(b) && a.queue == b.queue && a.queues[..a.queue] == b.queues[..b.queue]
    requires a.threads == b.threads && l.stale == m.stale
    ensures Doomed(b, m, w) == Doomed(a, l, w)
  {
  }

  lemma DoomedRestart(a: Agent, override: Option<string>, l: Ledger, w: Option<string>)
    requires Inv(a) && Enabled(a, Resume(override)) && NeedsRestart(a)
    ensures var (b, m) := (Next(a, Resume(override)), Account(a, Resume(override), l, w));
            Shape(b) && Doomed(b, m, w) == Doomed(a, l, w) + NewlyDoomed(a, Resume(override), w)
  {
    var b := Next(a, Resume(override));
    ShapeKept(a, Resume(override));
    assert b.queues[..b.queue] == a.queues && a.queues[..|a.queues| - 1] == a.queues[..a.queue];
    assert b.threads[..|b.threads| - 1] == a.threads;
  }

  /** A step of one thread changes what the superseded ones hold only if it is one of them. */
  lemma StaleUpdate(ts: seq<Thread>, t: nat, th: Thread, w: Option<string>)
    requires t < |ts|
    ensures HeldStale(ts[t := th], w) ==
            HeldStale(ts, w) + (if t + 1 < |ts| then HeldBy(th.pc, w) - HeldBy(ts[t].pc, w) else 0)
  {
    var (front, us) := (ts[..|ts| - 1], ts[t := th]);
    if t + 1 < |ts| {
      HeldUpdate(front, t, th, w);
      assert us[..|us| - 1] == front[t := th];
    } else {
      assert us[..|us| - 1] == front;
    }
  }

  lemma DoomedTake(a: Agent, t: nat, l: Ledger, w: Option<string>)
    requires Inv(a) && Enabled(a, Take(t))
    ensures var b := Next(a, Take(t));
            Shape(b) && Doomed(b, l, w) == Doomed(a, l, w) + NewlyDoomed(a, Take(t), w)
  {
    var (b, k) := (Next(a, Take(t)), a.threads[t].pc.queue);
    ShapeKept(a, Take(t));
    StaleUpdate(a.threads, t, b.threads[t], w);
    if k == a.queue {
      assert b.queues[..b.queue] == a.queues[..a.queue];
    } else {
      assert Superseded(a, t);
      QueueUpdate(a.queues[..a.queue], k, a.queues[k][1..], w);
      QueueHead(a.queues[k], w);
      assert b.queues[..b.queue] == a.queues[..a.queue][k := a.queues[k][1..]];
    }
  }

  lemma DoomedThread(a: Agent, e: Event, t: nat, l: Ledger, w: Option<string>)
    requires Inv(a) && Enabled(a, e) && ThreadOf(e) == Some(t) && !e.Take?
    ensures var (b, m) := (Next(a, e), Account(a, e, l, w));
            Shape(b) && Doomed(b, m, w) == Doomed(a, l, w)
  {
    ShapeKept(a, e);
    StaleUpdate(a.threads, t, Next(a, e).threads[t], w);
  }

  /** Every step of every run: the doomed inputs grow by exactly what the step dooms. */
  lemma DoomedStep(a: Agent, e: Event, l: Ledger, w: Option<string>)
    requires Inv(a) && Enabled(a, e)
    ensures var (b, m) := (Next(a, e), Account(a, e, l, w));
            Shape(b) && Doomed(b, m, w) == Doomed(a, l, w) + NewlyDoomed(a, e, w)
  {
    ShapeKept(a, e);
    if Restarts(a, e) {
      DoomedRestart(a, e.override, l, w);
    } else if e.Take? {
      DoomedTake(a, e.t, l, w);
    } else if ThreadOf(e).Some? {
      DoomedThread(a, e, e.t, l, w);
    } else {
      var b := Next(a, e);
      assert b.queues[..b.queue] == a.queues[..a.queue];
      OldQueuesKept(a, b, l, Account(a, e, l, w), w);
    }
  }

  function DoomedBy(a: Agent, es: seq<Event>, w: Option<string>): nat
    requires Shape(a) && Run(a, es).Some?
  {
    if es == [] then 0
    else DoomedBy(a, es[..|es| - 1], w) + NewlyDoomed(Run(a, es[..|es| - 1]).value, es[|es| - 1], w)
  }

  lemma OriginDoomed(a: Agent, w: Option<string>)
    requires Origin(a) && Shape(a)
    ensures Doomed(a, Tally(a, [], w), w) == 0
  {
    FirstThreadOnly(a, w);
    assert a.queues[..0] == [];
  }

  lemma FirstThreadOnly(a: Agent, w: Option<string>)
    requires |a.threads| <= 1
    ensures HeldStale(a.threads, w) == 0
  {
    if a.threads != [] {
      assert a.threads[..0] == [];
    }
  }

  lemma {:induction false} DoomedSum(a: Agent, es: seq<Event>, w: Option<string>)
    requires Origin(a) && Shape(a) && Run(a, es).Some?
    ensures Doomed(Run(a, es).value, Tally(a, es, w), w) == DoomedBy(a, es, w)
  {
    if es == [] {
      OriginDoomed(a, w);
    } else {
      var front := es[..|es| - 1];
      DoomedSum(a, front, w);
      RunInv(a, front);
      DoomedStep(Run(a, front).value, es[|es| - 1], Tally(a, front, w), w);
    }
  }

  /** Over every run an input is queued for the current thread, held by it, settled by it, or
      doomed; and the doomed ones are exactly those that the run's restarts and thefts doomed. */
  lemma LossAccounted(a: Agent, es: seq<Event>, b: Agent, w: Option<string>)
    requires Origin(a) && Shape(a) && Run(a, es) == Some(b)
    ensures var l := Tally(a, es, w);
            && l.submitted == Queued(b, w) + HeldNow(b.threads, w) + l.succeeded + l.failed + Doomed(b, l, w)
            && Doomed(b, l, w) == DoomedBy(a, es, w)
  {
    InputsConserved(a, es, b, w);
    DoomedSum(a, es, w);
  }

  /** An input is dropped exactly when a superseded thread comes out of its input's section or
      of its worker call. */
  lemma DropsExactly(a: Agent, e: Event, l: Ledger)
    requires Shape(a) && Enabled(a, e)
    ensures Account(a, e, l, None).stale > l.stale <==>
            (e.Begin? || e.Succeed? || e.Fail?) && Superseded(a, e.t) && HeldBy(PcOf(a, e.t), None) == 1
  {
  }

  // ---------- when a superseded thread can still steal ----------

  /** A superseded thread will read, or is reading, the queue in use. */
  predicate Reaches(a: Agent, t: nat) {
    Superseded(a, t) && (PcOf(a, t).Poll? || PcOf(a, t) == Waiting(a.queue))
  }

  predicate HasInput(q: seq<Item>) {
    q != [] && q[0].Input?
  }

  /** Some superseded thread reaches the queue in use, and that queue holds an input or the
      agent still accepts one. */
  ghost predicate Exposed(a: Agent)
    requires Shape(a)
  {
    (exists t: nat :: Reaches(a, t)) && (!a.stop || HasInput(a.queues[a.queue]))
  }

  ghost predicate CanSteal(b: Agent)
    requires Shape(b)
  {
    exists es, e :: StolenBy(b, es, e)
  }

  predicate StolenBy(b: Agent, es: seq<Event>, e: Event)
    requires Shape(b)
  {
    && Run(b, es).Some? && NoRestart(b, es)
    && Enabled(Run(b, es).value, e) && StealsInput(Run(b, es).value, e)
  }

  /** Without a restart no thread comes newly within reach, and a stopped agent's queue gains
      no input. */
  lemma StaysUnexposed(a: Agent, e: Event)
    requires LossInv(a) && !Exposed(a) && Enabled(a, e) && !Restarts(a, e)
    ensures LossInv(Next(a, e)) && !Exposed(Next(a, e))
    ensures !StealsInput(a, e)
  {
    LossInvKept(a, e);
    var b := Next(a, e);
    if e.Take? && Steals(a, e) {
      assert Reaches(a, e.t);
    }
    forall t: nat | Reaches(b, t) ensures Reaches(a, t) {
    }
    if exists t: nat :: Reaches(a, t) {
      StoppedGainsNothing(a, e);
    }
  }

  lemma StoppedGainsNothing(a: Agent, e: Event)
    requires LossInv(a) && a.stop && !HasInput(a.queues[a.queue]) && Enabled(a, e) && !Restarts(a, e)
    ensures Shape(Next(a, e)) && Next(a, e).stop && !HasInput(Next(a, e).queues[Next(a, e).queue])
  {
    LossInvKept(a, e);
    var q := a.queues[a.queue];
    assert q != [] ==> (q + [Sentinel])[0] == q[0];
    if e.Take? && a.threads[e.t].pc.queue == a.queue && |q| > 1 {
      assert q[0].Sentinel? && InputsThenSentinels(q);
    }
  }

  lemma {:induction false} UnexposedRun(b: Agent, es: seq<Event>)
    requires LossInv(b) && !Exposed(b) && Run(b, es).Some? && NoRestart(b, es)
    ensures LossInv(Run(b, es).value) && !Exposed(Run(b, es).value)
  {
    if es != [] {
      UnexposedRun(b, es[..|es| - 1]);
      StaysUnexposed(Run(b, es[..|es| - 1]).value, es[|es| - 1]);
    }
  }

  lemma Onward(b: Agent, es: seq<Event>, c: Agent, e: Event) returns (fs: seq<Event>)
    requires Shape(b) && Run(b, es) == Some(c) && NoRestart(b, es) && Enabled(c, e) && !Restarts(c, e)
    ensures fs == es + [e] && Run(b, fs) == Some(Next(c, e)) && NoRestart(b, fs)
  {
    fs := es + [e];
    assert fs[..|es|] == es;
  }

  lemma ReadsQueue(b: Agent, t: nat) returns (es: seq<Event>, c: Agent)
    requires LossInv(b) && Reaches(b, t)
    ensures |es| <= 1 && Run(b, es) == Some(c) && NoRestart(b, es) && LossInv(c)
    ensures Superseded(c, t) && PcOf(c, t) == Waiting(c.queue)
    ensures c.stop == b.stop && c.queue == b.queue && c.queues == b.queues
  {
    es, c := [], b;
    if PcOf(b, t).Poll? {
      es := Onward(b, es, b, ReadQueue(t));
      c := Next(b, ReadQueue(t));
      LossInvKept(b, ReadQueue(t));
    }
  }

  lemma TakesSent(c: Agent, t: nat)
    requires LossInv(c) && Superseded(c, t) && PcOf(c, t) == Waiting(c.queue) && c.queues[c.queue] == [] && !c.stop
    ensures Enabled(c, Send("x"))
    ensures var d := Next(c, Send("x")); LossInv(d) && Enabled(d, Take(t)) && StealsInput(d, Take(t))
  {
    AcceptsWhenOpen(c);
    LossInvKept(c, Send("x"));
    assert Next(c, Send("x")).queues[c.queue] == [Input("x")];
  }

  /** The theft, from any exposed state: read the queue, let a client send if it is empty, take. */
  lemma TheftRun(b: Agent, t: nat) returns (es: seq<Event>, e: Event)
    requires LossInv(b) && Reaches(b, t) && (!b.stop || HasInput(b.queues[b.queue]))
    ensures StolenBy(b, es, e) && |es| <= 2
  {
    var c;
    es, c := ReadsQueue(b, t);
    e := Take(t);
    if !HasInput(c.queues[c.queue]) {
      AcceptsWhenOpen(c);
      TakesSent(c, t);
      es := Onward(b, es, c, Send("x"));
    }
  }

  lemma AcceptsWhenOpen(c: Agent)
    requires LossInv(c) && c.threads != [] && !c.stop
    ensures Enabled(c, Send("x"))
    ensures !HasInput(c.queues[c.queue]) ==> c.queues[c.queue] == []
  {
  }

  /** For every reachable state: some continuation without a restart has a superseded thread
      take an input from the queue in use if and only if the state is exposed. */
  lemma TheftExact(a: Agent, es: seq<Event>, b: Agent)
    requires Origin(a) && Shape(a) && Run(a, es) == Some(b)
    ensures CanSteal(b) <==> Exposed(b)
  {
    RunLossInv(a, es);
    StealExact(b);
  }

  lemma StealExact(b: Agent)
    requires LossInv(b)
    ensures CanSteal(b) <==> Exposed(b)
  {
    if Exposed(b) {
      var t: nat :| Reaches(b, t);
      var fs, f := TheftRun(b, t);
    } else {
      forall fs, f ensures !StolenBy(b, fs, f) {
        if Run(b, fs).Some? && NoRestart(b, fs) {
          UnexposedRun(b, fs);
          if Enabled(Run(b, fs).value, f) && !Restarts(Run(b, fs).value, f) {
            StaysUnexposed(Run(b, fs).value, f);
          }
        }
      }
    }
  }

  /** While the agent is open, exposure is nothing but a superseded thread in reach. */
  lemma OpenExposure(b: Agent)
    requires LossInv(b) && !b.stop
    ensures CanSteal(b) <==> exists t: nat :: Reaches(b, t)
  {
    StealExact(b);
  }

  // ---------- when a restart is safe ----------

  lemma {:induction false} NoInputCount(q: seq<Item>)
    ensures InQueue(q, None) == 0 <==> forall i | 0 <= i < |q| :: q[i].Sentinel?
  {
    if q != [] {
      NoInputCount(q[..|q| - 1]);
    }
  }

  predicate HoldsNoInput(q: seq<Item>) {
    forall i | 0 <= i < |q| :: q[i].Sentinel?
  }

  /** A restart discards nothing if and only if the queue it replaces holds no input. */
  lemma RestartDiscards(a: Agent, override: Option<string>)
    requires Inv(a) && Enabled(a, Resume(override)) && NeedsRestart(a)
    ensures var b := Next(a, Resume(override));
            Shape(b) && (Discarded(b, None) == Discarded(a, None) <==> HoldsNoInput(a.queues[a.queue]))
  {
    var b := Next(a, Resume(override));
    ShapeKept(a, Resume(override));
    assert b.queues[..b.queue] == a.queues && a.queues[..|a.queues| - 1] == a.queues[..a.queue];
    NoInputCount(a.queues[a.queue]);
  }

  /** A restart dooms nothing, then or in any continuation up to the next restart, if and only
      if the old queue holds no input, the old thread holds none, and no thread is between its
      stop check and its read of the queue. */
  lemma RestartExact(a: Agent, override: Option<string>)
    requires LossInv(a) && Enabled(a, Resume(override)) && NeedsRestart(a)
    ensures var b := Next(a, Resume(override));
            && Shape(b)
            && ((NewlyDoomed(a, Resume(override), None) == 0 && !CanSteal(b)) <==>
                (&& HoldsNoInput(a.queues[a.queue]) && HeldNow(a.threads, None) == 0
                 && forall t: nat | t < |a.threads| :: !a.threads[t].pc.Poll?))
  {
    var b := Next(a, Resume(override));
    LossInvKept(a, Resume(override));
    NoInputCount(a.queues[a.queue]);
    OpenExposure(b);
    forall t: nat ensures Reaches(b, t) <==> t < |a.threads| && a.threads[t].pc.Poll? {
      assert t < |a.threads| ==> b.threads[t] == a.threads[t];
    }
  }

  // ---------- what a caller can check ----------

  /** A caller who resumes with care: a restart only when the old thread is not alive and the
      old queue holds no input. */
  predicate Careful(a: Agent, es: seq<Event>)
    requires Shape(a) && Run(a, es).Some?
  {
    es == [] ||
    var (before, e) := (Run(a, es[..|es| - 1]).value, es[|es| - 1]);
    && Careful(a, es[..|es| - 1])
    && (Restarts(before, e) ==> !ThreadAlive(before) && HoldsNoInput(before.queues[before.queue]))
  }

  predicate SupersededDead(a: Agent) {
    forall t | 0 <= t < |a.threads| - 1 :: a.threads[t].pc.Dead?
  }

  lemma {:induction false} FewerThanAll(q: seq<Item>, w: Option<string>)
    ensures InQueue(q, w) <= InQueue(q, None)
  {
    if q != [] {
      FewerThanAll(q[..|q| - 1], w);
    }
  }

  lemma CarefulRestart(a: Agent, e: Event, w: Option<string>)
    requires LossInv(a) && SupersededDead(a) && Enabled(a, e)
    requires Restarts(a, e) && !ThreadAlive(a) && HoldsNoInput(a.queues[a.queue])
    ensures SupersededDead(Next(a, e)) && NewlyDoomed(a, e, w) == 0
  {
    NoInputCount(a.queues[a.queue]);
    FewerThanAll(a.queues[a.queue], w);
  }

  lemma CarefulStep(a: Agent, e: Event, w: Option<string>)
    requires LossInv(a) && SupersededDead(a) && Enabled(a, e)
    requires Restarts(a, e) ==> !ThreadAlive(a) && HoldsNoInput(a.queues[a.queue])
    ensures SupersededDead(Next(a, e)) && NewlyDoomed(a, e, w) == 0
  {
    if Restarts(a, e) {
      CarefulRestart(a, e, w);
    }
  }

  lemma {:induction false} CarefulRun(a: Agent, es: seq<Event>, w: Option<string>)
    requires Origin(a) && Shape(a) && Run(a, es).Some? && Careful(a, es)
    ensures SupersededDead(Run(a, es).value) && DoomedBy(a, es, w) == 0
  {
    if es != [] {
      var front := es[..|es| - 1];
      CarefulRun(a, front, w);
      RunLossInv(a, front);
      CarefulStep(Run(a, front).value, es[|es| - 1], w);
    }
  }

  /** With that care nothing is ever lost, over any number of restarts: no input is discarded,
      none is dropped, and no superseded thread can ever steal one. */
  lemma CarefulLosesNothing(a: Agent, es: seq<Event>, b: Agent, w: Option<string>)
    requires Origin(a) && Shape(a) && Run(a, es) == Some(b) && Careful(a, es)
    ensures Discarded(b, w) == 0 && Tally(a, es, w).stale == 0
    ensures !CanSteal(b)
  {
    CarefulRun(a, es, w);
    DoomedSum(a, es, w);
    TheftExact(a, es, b);
  }
}
