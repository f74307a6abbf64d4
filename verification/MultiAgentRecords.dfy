/** What a sub-agent's record shows after any run, read off the history of events alone: no queue,
    no program counter and no transition enters these definitions. */
module MultiAgentRecords {
  import opened Text
  import opened MultiAgent
  import opened MultiAgentRuns

  // ---------- threads, stop flag and status ----------

  /** How many threads have been started: each resume of a closed agent starts one more. */
  function Started(a: Agent, es: seq<Event>): nat
    decreases |es|, 0
  {
    if es == [] then |a.threads|
    else
      var (front, e) := (es[..|es| - 1], es[|es| - 1]);
      Started(a, front) + if e.Resume? && Closed(a, front) then 1 else 0
  }

  /** The thread was the last one started. */
  predicate Newest(a: Agent, es: seq<Event>, t: nat)
    decreases |es|, 1
  {
    t + 1 == Started(a, es)
  }

  /** A close stops the agent, and the resume of a closed agent opens it again. */
  predicate Stopped(a: Agent, es: seq<Event>)
    decreases |es|, 0
  {
    if es == [] then a.stop
    else
      var (front, e) := (es[..|es| - 1], es[|es| - 1]);
      if e.Close? then true else if e.Resume? && Closed(a, front) then false else Stopped(a, front)
  }

  /** The newest thread has died, or there is none. */
  predicate Exited(a: Agent, es: seq<Event>)
    decreases |es|, 0
  {
    if es == [] then !ThreadAlive(a)
    else
      var (front, e) := (es[..|es| - 1], es[|es| - 1]);
      if e.Die? && Newest(a, front, e.t) then true
      else if e.Resume? && Closed(a, front) then false
      else Exited(a, front)
  }

  predicate Closed(a: Agent, es: seq<Event>)
    decreases |es|, 1
  {
    LastStatus(a, es) == Shutdown || Stopped(a, es) || Exited(a, es)
  }

  /** The text that an event submits. */
  function Submitted(e: Event): Option<string> {
    match e
    case Send(text) => Some(text)
    case Resume(override) => if override.Some? && Strip(override.value) != "" then Some(Strip(override.value)) else None
    case _ => None
  }

  /** The status named by the last event that names one; of the events of threads only those of
      the newest do. */
  function LastStatus(a: Agent, es: seq<Event>): Status
    decreases |es|, 0
  {
    if es == [] then a.status
    else
      var (front, e) := (es[..|es| - 1], es[|es| - 1]);
      if Submitted(e).Some? then PendingInit
      else if e.Resume? && Closed(a, front) then WaitingInput
      else if e.CloseDone? then Shutdown
      else if e.Begin? && Newest(a, front, e.t) then Running
      else if e.Succeed? && Newest(a, front, e.t) then Completed
      else if e.Fail? && Newest(a, front, e.t) then Failed
      else if e.Finish? && Newest(a, front, e.t) && LastStatus(a, front) != Failed then Shutdown
      else LastStatus(a, front)
  }

  // ---------- inputs, outputs and errors ----------

  /** The last text submitted. */
  function LastInput(a: Agent, es: seq<Event>): string {
    if es == [] then a.lastInput
    else
      var e := es[|es| - 1];
      if Submitted(e).Some? then Submitted(e).value else LastInput(a, es[..|es| - 1])
  }

  /** The output of the last call that succeeded while its thread was the newest. */
  function LastOutput(a: Agent, es: seq<Event>): string {
    if es == [] then a.lastOutput
    else
      var (front, e) := (es[..|es| - 1], es[|es| - 1]);
      if e.Succeed? && Newest(a, front, e.t) then e.output else LastOutput(a, front)
  }

  /** The error of the last such call that failed, unless one succeeded since. */
  function LastError(a: Agent, es: seq<Event>): string {
    if es == [] then a.lastError
    else
      var (front, e) := (es[..|es| - 1], es[|es| - 1]);
      if e.Fail? && Newest(a, front, e.t) then e.error
      else if e.Succeed? && Newest(a, front, e.t) then ""
      else LastError(a, front)
  }

  /** How many such calls have succeeded. */
  function Successes(a: Agent, es: seq<Event>): nat {
    if es == [] then 0
    else
      var (front, e) := (es[..|es| - 1], es[|es| - 1]);
      Successes(a, front) + if e.Succeed? && Newest(a, front, e.t) then 1 else 0
  }

  /** The record of a spawned agent before anything else happens. */
  lemma SpawnedRecord(text: string)
    ensures var a := Spawned(text);
            && a.lastInput == text && a.lastOutput == "" && a.lastError == "" && a.taskCount == 0
            && a.status == PendingInit && !a.stop && |a.threads| == 1 && ThreadAlive(a)
  {
  }

  // ---------- the record shows the history ----------

  /** What decides which thread is current and whether a resume restarts. */
  predicate Agrees(a: Agent, es: seq<Event>, b: Agent) {
    && |b.threads| == Started(a, es)
    && b.stop == Stopped(a, es)
    && (ThreadAlive(b) <==> !Exited(a, es))
    && b.status == LastStatus(a, es)
  }

  lemma NewestIsCurrent(a: Agent, es: seq<Event>, b: Agent, t: nat)
    requires Shape(b) && |b.threads| == Started(a, es) && t < |b.threads|
    ensures Current(b, t) <==> Newest(a, es, t)
  {
  }

  lemma ClosedNeedsRestart(a: Agent, es: seq<Event>, b: Agent)
    requires Agrees(a, es, b)
    ensures NeedsRestart(b) <==> Closed(a, es)
  {
  }

  /** The thread an event belongs to exists and is not dead. */
  lemma OwnThread(a: Agent, e: Event)
    requires Shape(a) && Enabled(a, e) && ThreadOf(e).Some?
    ensures e.t < |a.threads| && !a.threads[e.t].pc.Dead?
  {
  }

  lemma ClientAgrees(a: Agent, front: seq<Event>, b: Agent, e: Event)
    requires Shape(b) && Enabled(b, e) && Agrees(a, front, b) && ThreadOf(e).None?
    ensures Agrees(a, front + [e], Next(b, e))
  {
    assert (front + [e])[..|front|] == front;
    ClosedNeedsRestart(a, front, b);
  }

  lemma ThreadAgrees(a: Agent, front: seq<Event>, b: Agent, e: Event)
    requires Shape(b) && Enabled(b, e) && Agrees(a, front, b) && ThreadOf(e).Some?
    ensures Agrees(a, front + [e], Next(b, e))
  {
    assert (front + [e])[..|front|] == front;
    OwnThread(b, e);
    NewestIsCurrent(a, front, b, e.t);
    ThreadLives(b, e);
  }

  /** Of the thread events only its own death ends the newest thread. */
  lemma ThreadLives(a: Agent, e: Event)
    requires Shape(a) && Enabled(a, e) && ThreadOf(e).Some?
    ensures var b := Next(a, e);
            && |b.threads| == |a.threads| && b.stop == a.stop
            && (ThreadAlive(b) <==> ThreadAlive(a) && !(e.Die? && Current(a, e.t)))
  {
    OwnThread(a, e);
  }

  lemma {:induction false} RunAgrees(a: Agent, es: seq<Event>)
    requires Shape(a) && Run(a, es).Some?
    ensures Agrees(a, es, Run(a, es).value)
  {
    if es != [] {
      var (front, e) := (es[..|es| - 1], es[|es| - 1]);
      var b := Run(a, front).value;
      RunAgrees(a, front);
      Snoc(es);
      if ThreadOf(e).None? {
        ClientAgrees(a, front, b, e);
      } else {
        ThreadAgrees(a, front, b, e);
      }
    }
  }

  predicate Shows(a: Agent, es: seq<Event>, b: Agent) {
    && b.lastInput == LastInput(a, es)
    && b.lastOutput == LastOutput(a, es)
    && b.lastError == LastError(a, es)
    && b.taskCount == a.taskCount + Successes(a, es)
  }

  lemma NextShows(a: Agent, front: seq<Event>, b: Agent, e: Event)
    requires Shape(b) && Enabled(b, e) && Agrees(a, front, b) && Shows(a, front, b)
    ensures Shows(a, front + [e], Next(b, e))
  {
    assert (front + [e])[..|front|] == front;
    if ThreadOf(e).Some? {
      OwnThread(b, e);
      NewestIsCurrent(a, front, b, e.t);
    }
  }

  /** After every run, whatever the interleaving: the last input is the last one submitted, the last
      output and error and the count are those of the calls that ended while their thread was the
      newest, and the status is the last one named. */
  lemma {:induction false} RecordExact(a: Agent, es: seq<Event>, b: Agent)
    requires Shape(a) && Run(a, es) == Some(b)
    ensures b.lastInput == LastInput(a, es)
    ensures b.lastOutput == LastOutput(a, es)
    ensures b.lastError == LastError(a, es)
    ensures b.taskCount == a.taskCount + Successes(a, es)
    ensures b.status == LastStatus(a, es)
    ensures b.stop == Stopped(a, es) && |b.threads| == Started(a, es) && (ThreadAlive(b) <==> !Exited(a, es))
  {
    RunAgrees(a, es);
    if es != [] {
      var (front, e) := (es[..|es| - 1], es[|es| - 1]);
      var before := Run(a, front).value;
      RecordExact(a, front, before);
      RunAgrees(a, front);
      Snoc(es);
      NextShows(a, front, before, e);
    }
  }
}
