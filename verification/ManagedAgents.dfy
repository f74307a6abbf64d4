/** The sub-agent object itself: its fields are updated in place, one method per
    atomic section, each against the section's value in the transition system. */
module ManagedAgents {
  import opened Text
  import opened MultiAgent
  import opened MultiAgentRuns

  class ManagedAgent {
    var status: Status
    var lastInput: string
    var lastOutput: string
    var lastError: string
    var taskCount: nat
    var stop: bool
    var queues: seq<seq<Item>>
    var queue: nat
    var generation: nat
    var threads: seq<Thread>
    var thread: Option<nat>
    var closing: bool

    function View(): Agent
      reads this
    {
      Agent(status, lastInput, lastOutput, lastError, taskCount, stop, queues, queue, generation, threads, thread,
            closing)
    }

    /** The invariant of every agent run. */
    predicate Valid()
      reads this
    {
      Inv(View())
    }

    constructor ()
      ensures View() == NewAgent() && Valid()
    {
      status, lastInput, lastOutput, lastError := PendingInit, "", "", "";
      taskCount, stop, queues, queue := 0, false, [[]], 0;
      generation, threads, thread, closing := 0, [], None, false;
    }

    method StartWorker()
      modifies this
      ensures View() == StartThread(old(View()))
    {
      generation := generation + 1;
      thread := Some(|threads|);
      threads := threads + [Thread(generation, Top)];
    }

    method SubmitInput(text: string)
      requires queue < |queues|
      modifies this
      ensures View() == Submit(old(View()), text)
    {
      status := PendingInit;
      lastInput := text;
      queues := queues[queue := queues[queue] + [Input(text)]];
    }

    /** `send_input` once the agent is found: refused without any change when the text is
        blank or the agent is closed. */
    method SendInput(text: string) returns (ok: bool)
      requires Valid() && !closing
      modifies this
      ensures Valid()
      ensures ok <==> Strip(text) != "" && old(AcceptsInput(View()))
      ensures ok ==> View() == Next(old(View()), Send(Strip(text)))
      ensures !ok ==> View() == old(View())
    {
      var cleaned := Strip(text);
      if cleaned == "" {
        return false;
      }
      if stop || status == Shutdown {
        return false;
      }
      if thread.None? || threads[thread.value].pc.Dead? {
        return false;
      }
      SubmitInput(cleaned);
      return true;
    }

    /** The half of `_shutdown_agent_unlocked` before the join. */
    method BeginShutdown()
      requires Valid() && !closing
      modifies this
      ensures Valid()
      ensures View() == Next(old(View()), Close)
    {
      stop := true;
      queues := queues[queue := queues[queue] + [Sentinel]];
      closing := true;
    }

    /** The half after the join, still under the lock. */
    method EndShutdown()
      requires Valid() && closing
      modifies this
      ensures Valid()
      ensures View() == Next(old(View()), CloseDone)
    {
      status := Shutdown;
      closing := false;
    }

    method RestartWorker()
      modifies this
      ensures View() == Restart(old(View()))
    {
      stop := false;
      queue := |queues|;
      queues := queues + [[]];
      status := WaitingInput;
      StartWorker();
    }

    /** `resume_agent`: a blank override is an error, but the restart has already happened. */
    method ResumeWith(override: Option<string>) returns (ok: bool)
      requires Valid() && !closing
      modifies this
      ensures Valid()
      ensures View() == Next(old(View()), Resume(override))
      ensures ok <==> override == None || Strip(override.value) != ""
    {
      InvKept(View(), Resume(override));
      if status == Shutdown || stop || thread.None? || threads[thread.value].pc.Dead? {
        RestartWorker();
      }
      ok := true;
      if override.Some? {
        var cleaned := Strip(override.value);
        if cleaned == "" {
          return false;
        }
        SubmitInput(cleaned);
      }
    }

    method GotoPc(t: nat, pc: Pc)
      requires t < |threads|
      modifies this`threads
      ensures View() == Goto(old(View()), t, pc)
    {
      threads := threads[t := threads[t].(pc := pc)];
    }

    /** Top of the loop: generation check, then stop check. */
    method CheckLoop(t: nat)
      requires Valid() && Enabled(View(), Check(t))
      modifies this
      ensures Valid()
      ensures View() == Next(old(View()), Check(t))
    {
      if generation != threads[t].generation {
        GotoPc(t, Returned);
        return;
      }
      GotoPc(t, if stop then Final else Poll);
    }

    /** `agent._queue.get(timeout=0.1)` on the queue object read before. */
    method GetItem(t: nat) returns (item: Option<Item>)
      requires Valid() && PcOf(View(), t).Waiting?
      modifies this
      ensures Valid()
      ensures item == None <==> old(queues[threads[t].pc.queue]) == []
      ensures item == None ==> View() == Next(old(View()), TakeTimeout(t))
      ensures item != None ==>
                && item.value == old(queues[threads[t].pc.queue][0])
                && View() == Next(old(View()), Take(t))
    {
      var q := threads[t].pc.queue;
      if queues[q] == [] {
        item := None;
        GotoPc(t, Top);
        return;
      }
      var head := queues[q][0];
      item := Some(head);
      queues := queues[q := queues[q][1..]];
      GotoPc(t, if head.Sentinel? then Final else Start(head.text));
    }

    method BeginCall(t: nat) returns (started: bool)
      requires Valid() && Enabled(View(), Begin(t))
      modifies this
      ensures Valid()
      ensures View() == Next(old(View()), Begin(t))
      ensures started <==> old(Current(View(), t))
    {
      started := generation == threads[t].generation;
      if !started {
        GotoPc(t, Returned);
        return;
      }
      status := Running;
      GotoPc(t, Work(threads[t].pc.text));
    }

    /** Both outcomes of the worker call: its output, or the exception it raised. */
    method EndCall(t: nat, output: string, error: Option<string>)
      requires Valid() && !closing && PcOf(View(), t).Work?
      modifies this
      ensures Valid()
      ensures View() == Next(old(View()), if error.None? then Succeed(t, output) else Fail(t, error.value))
    {
      if generation != threads[t].generation {
        GotoPc(t, Returned);
        return;
      }
      Record(output, error);
      GotoPc(t, Top);
    }

    /** What the current thread writes down of its call. */
    method Record(output: string, error: Option<string>)
      modifies this
      ensures View() == if error.None? then
                          old(View()).(lastOutput := output, lastError := "", taskCount := old(taskCount) + 1,
                                       status := Completed)
                        else old(View()).(lastError := error.value, status := Failed)
    {
      if error.None? {
        lastOutput := output;
        lastError := "";
        taskCount := taskCount + 1;
        status := Completed;
      } else {
        lastError := error.value;
        status := Failed;
      }
    }

    /** The lock section after the loop. */
    method LeaveLoop(t: nat)
      requires Valid() && Enabled(View(), Finish(t))
      modifies this
      ensures Valid()
      ensures View() == Next(old(View()), Finish(t))
    {
      if generation == threads[t].generation {
        if status != Failed {
          status := Shutdown;
        }
      }
      GotoPc(t, Returned);
    }

    /** Any one section, by the method that is its code. */
    method Perform(e: Event)
      requires Valid() && Enabled(View(), e)
      modifies this
      ensures View() == Next(old(View()), e) && Valid()
    {
      InvKept(View(), e);
      match e {
        case Send(text) => SubmitInput(text);
        case Close => BeginShutdown();
        case CloseDone => EndShutdown();
        case Resume(override) => var _ := ResumeWith(override);
        case Check(t) => CheckLoop(t);
        case ReadQueue(t) => GotoPc(t, Waiting(queue));
        case Take(t) => var _ := GetItem(t);
        case TakeTimeout(t) => var _ := GetItem(t);
        case Begin(t) => var _ := BeginCall(t);
        case Succeed(t, output) => EndCall(t, output, None);
        case Fail(t, error) => EndCall(t, "", Some(error));
        case Finish(t) => LeaveLoop(t);
        case Die(t) => GotoPc(t, Dead);
      }
    }
  }

  /** A spawned agent through any possible interleaving of its sections: the object is always in
      the state of the run, and so keeps all the laws of runs. */
  method Live(task: string, es: seq<Event>) returns (agent: ManagedAgent)
    requires Shape(Spawned(task)) && Run(Spawned(task), es).Some?
    ensures fresh(agent) && Some(agent.View()) == Run(Spawned(task), es) && agent.Valid()
  {
    agent := new ManagedAgent();
    agent.StartWorker();
    agent.SubmitInput(task);
    OriginInv(Spawned(task));
    for k := 0 to |es|
      invariant fresh(agent) && agent.Valid() && Some(agent.View()) == Run(Spawned(task), es[..k])
    {
      assert es[..k + 1][..k] == es[..k];
      PrefixRuns(Spawned(task), es, k + 1);
      agent.Perform(es[k]);
    }
    assert es[..|es|] == es;
  }

  lemma {:induction false} PrefixRuns(a: Agent, es: seq<Event>, k: nat)
    requires Shape(a) && Run(a, es).Some? && k <= |es|
    ensures Run(a, es[..k]).Some?
  {
    if k == |es| {
      assert es[..k] == es;
    } else {
      PrefixRuns(a, es[..|es| - 1], k);
      assert es[..|es| - 1][..k] == es[..k];
    }
  }
}
