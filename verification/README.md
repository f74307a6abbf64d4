# Verified model of LocalAgentCLI's core

LocalAgentCLI runs language-model agents on a workspace: it starts sub-agents on worker
threads, streams model output, executes plans with tools behind a safety gate, can undo file
changes, records what changed between turns and rebuilds sessions from logs. This project
models the parts of it whose correctness is hardest to see and proves what they promise,
for all inputs, all runs and all interleavings.

Code that changes state step by step is written as classes and loops, each method proved
equal to a specification function of its old state; the laws are lemmas about those functions.
What several threads or tasks do at once is a transition system whose steps are the atomic
sections of the code, with any order of steps allowed. Models, tools, planners, users, clocks
and schedules are arbitrary parameters.

| file | models |
|---|---|
| `Text.dfy` | the string operations the others share: strip, lower case, order, decimal numbers, split and join |
| `MultiAgent.dfy`, `MultiAgentRuns.dfy`, `MultiAgentLoss.dfy`, `MultiAgentRecords.dfy`, `ManagedAgents.dfy`, `MultiAgentManager.dfy`, `ManagerLaws.dfy`, `Snapshots.dfy` | the sub-agent worker protocol: one agent's transition system, its laws over every run, when inputs are lost, what its record shows, the agent object, the manager with its lock, and saving and loading |
| `AgentPath.dfy` | agent paths |
| `CapturedOutput.dfy`, `StreamBridge.dfy`, `StreamLaws.dfy` | captured output, the bridge from the worker thread to the event loop, and what a stream holds |
| `Recovery.dfy`, `ToolBatch.dfy`, `ParallelBatch.dfy`, `StepLoop.dfy`, `Planner.dfy`, `AgentRun.dfy` | the agent loop: failure classes and budgets, tool batches on both paths, one step, plans, and whole runs |
| `SafetyGate.dfy`, `StepLaws.dfy`, `Replanning.dfy` | its laws: which calls run and which are asked about, what a step leaves behind, and what a turn makes of the plan |
| `Anthropic.dfy` | message grouping for the Anthropic API |
| `OpenAiStream.dfy`, `OpenAiTexts.dfy` | the tool-call accumulator and the stream of OpenAI-compatible providers |
| `Rollback.dfy` | the undo log and the hooks that feed it |
| `ContextDiff.dfy` | the difference of context snapshots |
| `Replay.dfy` | session recovery from the event log |
| `Approval.dfy` | the approval handshake between runtime and agent loop |
| `McpNaming.dfy` | names of MCP tools |

## Results worth knowing

- A restarted sub-agent can lose accepted inputs. An input is lost exactly when a restart leaves
  it in the old queue or with the old thread, or when a superseded thread takes it from the new
  queue (`LossAccounted`). The latter can still happen, without another restart, if and only if
  some superseded thread is about to read the queue in use, or is reading it, and the queue holds
  an input or the agent still accepts one (`TheftExact`). A restart is safe if and only if the old
  queue holds no input, the old thread holds none, and no thread is between its stop check and its
  read (`RestartExact`). A caller who resumes only when the old thread is not alive and the old
  queue holds no input never loses anything (`CarefulLosesNothing`).
- Under the shell approval policy the runtime supplies the decision before the agent loop
  waits for it; the decision is lost and the loop waits forever, for every decision
  (`ShellNeverAnswers`, `StuckReachable`). Under the other policies every request is answered
  (`ResponsiveExactly`).
- A context difference determines its target exactly when no nested object of the previous
  snapshot looks, once removed, like a change of itself (`DeterminedExactly`). Snapshots that
  avoid the four marker keys always qualify.
- The parallel tool path decides all calls, then executes them in the pool's order, then reports.
  For every order its events are those of the sequential path, call by call and as a whole, but
  never in the same sequence; error flag and first failure are the same, and so are the messages
  exactly when each tool is registered under the requested name (`EveryOrderAgrees`).
- In every batch, step and run, on both paths and in every order of the pool, a call is executed
  exactly once or never: it is executed if and only if it names a registered tool with readable
  arguments, stays within the boundary, is not barred by a read-only posture, and has a yes where one
  is needed; and someone is asked exactly where one is needed (`BatchGate`, `StepGate`, `RunGate`).
- The undo log stands for a plain stack of changed paths with what they held before, through any
  session (`RunInv`); a call is on it if and only if it succeeded without raising and its target
  existed before or exists afterwards (`RecordsExactly`).
- The safety posture is read once per call: in any batch, step or run a tool with side effects runs
  under a read-only posture if and only if the posture became read-only after a permitted call with
  side effects was checked (`SwitchExact`, `HandledSwitchExact`, `StepSwitchExact`,
  `RunSwitchExact`). The parallel path never does that, and neither does a run in which no posture
  changes between a check and its execution (`SteadyRunSafe`). `set_sandbox_mode`
  (localagentcli/safety/layer.py:160) has no caller inside the package, so only an embedder can do it.
- Two neighbouring fragments of an OpenAI stream may change places exactly in these cases: neither
  moves the place of the other, and if both land on one call their order does not show there; or
  one moves the other, which has no effect at either place; or they are equal (`CommuteExactly`).
  Fragments with different explicit indices always may; for a fragment without an index it depends
  on the calls there are. Two whole deliveries, with or without indices, gather the same if and only
  if at every place their fragments come to the same call (`DeliveriesAgreeExactly`).
- Replaying part of an event log first makes no difference if and only if the whole log's result
  begins with the part's, whatever the rest of the log completes or changes (`PartFirstExact`). That
  is so when every submission completed or changed later stands behind all those complete in the
  part (`PartThenWhole`). A submission completed later with complete ones behind it does make a
  difference, unless those add nothing or begin with its own recovery (`CompletedLaterExact`). So
  does a recovered submission whose texts change, unless its new pair is there already
  (`ChangedDiffers`).
- A stopped run marks its interrupted step skipped only when a later step is still pending;
  interrupted on its last step, the plan ends with that step in progress (`RunShape`).

## Model

| member | source | states |
|---|---|---|
| MultiAgentRuns.RunInv | localagentcli/agents/multi_agent.py:347-411 | every state of every interleaving of client calls and worker threads has the queue, generation and thread invariants |
| MultiAgentRuns.StaleThreadInert | localagentcli/agents/multi_agent.py:366-387 | no step of a thread whose generation is superseded changes status, last output, last error, last input, task count, stop flag or generation, and none begins a worker call |
| MultiAgentRuns.CurrentThread | localagentcli/agents/multi_agent.py:347-411 | at most one thread is current, it is the agent's `_thread`, and once it has left its loop the stop flag is set and the status is shutdown or failed |
| MultiAgentRuns.QueueShape | localagentcli/agents/multi_agent.py:341-411 | every queue object always holds inputs and then sentinels, and the current one holds no sentinel while the stop flag is unset |
| MultiAgentRuns.OneCallAfterStop | localagentcli/agents/multi_agent.py:351-371 | in every run at most one worker call begins after the stop flag was last set and before the agent is restarted |
| MultiAgentRuns.InputsConserved | localagentcli/agents/multi_agent.py:304-387 | per input text and in total, submitted = queued + held by a thread + succeeded + failed + discarded by a resume + dropped by a superseded thread; the task count is its initial value plus the successes |
| MultiAgentRecords.RecordExact | localagentcli/agents/multi_agent.py:304-411 | after every run the last input is the last one submitted, the last output and error and the task count are those of the calls that ended while their thread was the newest, and status, stop flag and thread are those that the history of events names |
| MultiAgentRuns.NothingLostBeforeRestart | localagentcli/agents/multi_agent.py:298-387 | through an agent's first generation nothing is discarded and nothing is dropped; beyond it RestartExact and CarefulLosesNothing say when |
| MultiAgentRuns.AcceptedInputCanBeDropped | localagentcli/agents/multi_agent.py:304-368 | a reachable instance of the loss that TheftExact characterises: any input of a resumed agent is taken and dropped by the superseded thread in seven steps from the start |
| MultiAgentLoss.LossAccounted | localagentcli/agents/multi_agent.py:304-387 | in every run each input is queued for the current thread, held by it, settled by it or doomed, and the doomed ones are exactly those that restarts and thefts doomed |
| MultiAgentLoss.DoomedStep | localagentcli/agents/multi_agent.py:304-387 | each step dooms exactly the inputs queued and held at a restart, or the one a superseded thread takes from the queue in use, and nothing else |
| MultiAgentLoss.DropsExactly | localagentcli/agents/multi_agent.py:366-385 | a step drops an input exactly when a superseded thread that holds one finds out that it is superseded |
| MultiAgentLoss.TheftExact | localagentcli/agents/multi_agent.py:351-368 | for every reachable state: some continuation without a restart has a superseded thread take an input from the queue in use if and only if one is about to read it or is reading it, and the queue holds an input or the agent is not stopped |
| MultiAgentLoss.OpenExposure | localagentcli/agents/multi_agent.py:351-368 | while the agent is not stopped, that is exactly a superseded thread about to read the queue in use or reading it |
| MultiAgentLoss.TheftRun | localagentcli/agents/multi_agent.py:351-368 | from any such state the theft takes at most a read, a send and the taking |
| MultiAgentLoss.RestartDiscards | localagentcli/agents/multi_agent.py:304-309 | a restart discards nothing if and only if the queue it replaces holds no input |
| MultiAgentLoss.RestartExact | localagentcli/agents/multi_agent.py:298-309 | a restart dooms nothing, then or up to the next restart, if and only if the old queue holds no input, the old thread holds none and no thread stands between its stop check and its read of the queue |
| MultiAgentLoss.CarefulLosesNothing | localagentcli/agents/multi_agent.py:298-316 | if every restart happens with the old thread not alive and no input in the old queue, nothing is discarded, dropped or ever stolen, over any number of restarts |
| MultiAgentRuns.FirstInFirstOut | localagentcli/agents/multi_agent.py:341-364 | what was put into the current queue is what was taken from it followed by what it still holds, in order |
| MultiAgentRuns.Extend | localagentcli/agents/multi_agent.py:347-411 | a run followed by one possible event is a run, and its ledger is the old one with the event accounted |
| MultiAgent.ShapeKept | localagentcli/agents/multi_agent.py:347-411 | every atomic section keeps generations equal to threads started and the current queue the newest one |
| ManagedAgents.ManagedAgent.constructor | localagentcli/agents/multi_agent.py:34-52 | a new agent has no thread, an empty queue and status pending_init |
| ManagedAgents.ManagedAgent.StartWorker | localagentcli/agents/multi_agent.py:347-402 | starting a worker raises the generation and makes the new thread the agent's only current one |
| ManagedAgents.ManagedAgent.SubmitInput | localagentcli/agents/multi_agent.py:341-345 | submitting sets status and last input and appends to the queue in use |
| ManagedAgents.ManagedAgent.SendInput | localagentcli/agents/multi_agent.py:210-224 | accepted exactly when the text is not blank and the agent is open with a live thread; refused without any change otherwise |
| ManagedAgents.ManagedAgent.BeginShutdown | localagentcli/agents/multi_agent.py:404-409 | the half of a close before the join: stop flag and sentinel |
| ManagedAgents.ManagedAgent.EndShutdown | localagentcli/agents/multi_agent.py:410-411 | the half after the join writes shutdown whatever the worker wrote meanwhile |
| ManagedAgents.ManagedAgent.ResumeWith | localagentcli/agents/multi_agent.py:298-316 | restarts a closed agent on a fresh queue and stop flag; a blank override is an error raised after the restart |
| ManagedAgents.ManagedAgent.CheckLoop | localagentcli/agents/multi_agent.py:353-357 | the top of the loop: return when superseded, leave when stopped, go on otherwise |
| ManagedAgents.ManagedAgent.GetItem | localagentcli/agents/multi_agent.py:359-364 | takes the first item of the queue object read before, times out on an empty one, leaves on a sentinel |
| ManagedAgents.ManagedAgent.BeginCall | localagentcli/agents/multi_agent.py:366-372 | a worker call begins exactly when the thread is still current |
| ManagedAgents.ManagedAgent.EndCall | localagentcli/agents/multi_agent.py:373-387 | a result or an exception is recorded only by a current thread; RecordExact says what that shows |
| ManagedAgents.ManagedAgent.LeaveLoop | localagentcli/agents/multi_agent.py:389-394 | the last section writes shutdown unless superseded or failed |
| ManagedAgents.ManagedAgent.Perform | localagentcli/agents/multi_agent.py:304-411 | every section, by the method that is its code, is the step of the transition system and keeps the invariant of agent runs |
| ManagedAgents.Live | localagentcli/agents/multi_agent.py:191-200 | a spawned agent object taken through any interleaving is in the state of that run and satisfies its invariant |
| MultiAgentManager.EveryAgentRuns | localagentcli/agents/multi_agent.py:67-411 | in every run of the whole manager every agent object has gone through a run of its own protocol, so all its laws hold; distinct paths name distinct agents and every path is valid |
| MultiAgentManager.ManagerInvKept | localagentcli/agents/multi_agent.py:88-411 | every client call, every step of a close that holds the lock across joins, and every worker step keeps the manager's invariant |
| MultiAgentManager.HolderGoesOn | localagentcli/agents/multi_agent.py:150-155 | in every run whoever holds the lock across joins can go on, comes closer to giving it back with each step, and is not held up by worker threads |
| MultiAgentManager.FreeMeansFree | localagentcli/agents/multi_agent.py:404-411 | while the lock is free no close is under way for any agent |
| MultiAgentManager.ClearStopsAll | localagentcli/agents/multi_agent.py:144-155 | when a clear gives the lock back every agent it removes is stopped and shut down, and the table is empty |
| MultiAgentManager.SpawnEffect | localagentcli/agents/multi_agent.py:157-200 | a spawn adds exactly one path and one agent and stays within the limit; a refused one changes at most the name counter |
| ManagerLaws.SpawnExact | localagentcli/agents/multi_agent.py:157-200 | a spawn succeeds if and only if it has a task, room, a valid parent, a valid name and a free path; each refusal has its error; a name is generated exactly when none is given |
| ManagerLaws.ActAgents | localagentcli/agents/multi_agent.py:202-322 | an action of the manager is one event of the agent that it addresses and nothing to any other agent |
| ManagerLaws.ActTable | localagentcli/agents/multi_agent.py:99-155 | only a spawn, a load and the end of a clear change the table, and only the last two remove paths |
| ManagerLaws.NumberText | localagentcli/agents/multi_agent.py:418-421 | a number is written with its sign and can be read back |
| MultiAgentManager.GeneratedNamesDistinct | localagentcli/agents/multi_agent.py:329-339 | generated names never repeat in a run, across loads and clears |
| MultiAgentManager.NextNameFreshAfterLoad | localagentcli/agents/multi_agent.py:139-140 | right after a load the next generated name is the last segment of no loaded path |
| MultiAgentManager.AgentManager.constructor | localagentcli/agents/multi_agent.py:70-74 | an empty manager whose limit is at least one |
| MultiAgentManager.AgentManager.NextGeneratedName | localagentcli/agents/multi_agent.py:329-331 | the counter grows by one and names the result |
| MultiAgentManager.AgentManager.TrackGeneratedName | localagentcli/agents/multi_agent.py:333-339 | the counter becomes at least the number in a generated-looking name |
| MultiAgentManager.AgentManager.Spawn | localagentcli/agents/multi_agent.py:157-200 | the checks of a spawn in their order, each with its error, and the new agent, path and counter |
| MultiAgentManager.AgentManager.Load | localagentcli/agents/multi_agent.py:99-142 | a load forgets the present agents, takes over the items with valid paths in path order, their status, error and count normalized, as agents without threads, and counts them |
| MultiAgentManager.SortedExact | localagentcli/agents/multi_agent.py:102 | the sorted items are the items of the snapshot, in the order of their paths |
| MultiAgentManager.LoadOrderIrrelevant | localagentcli/agents/multi_agent.py:99-142 | the state after a load does not depend on the order in which the snapshot lists its paths |
| Snapshots.SaveAndLoad | localagentcli/agents/multi_agent.py:53-142 | saving any manager and loading the result gives the same paths, and under each the same error and count, the final status or shutdown, and no thread |
| Snapshots.StatusRoundTrip | localagentcli/agents/multi_agent.py:448-456 | of the written statuses completed, failed and not_found are read back, and any other is a shutdown |
| MultiAgentManager.RestoreAndSpawn | localagentcli/agents/multi_agent.py:157-200 | a restored manager that generates the name of a new agent never finds it taken: it refuses only a blank task or a full table |
| AgentPath.ParsePrint | localagentcli/agents/agent_path.py:49-52 | every list of valid segments prints to a valid path that parses back to it |
| AgentPath.PrintParse | localagentcli/agents/agent_path.py:115-129 | every valid path is the print of the valid segments it parses to |
| AgentPath.ValidExactlyPrinted | localagentcli/agents/agent_path.py:101-129 | a string is a valid path if and only if it is the print of some list of valid segments |
| AgentPath.JoinAppends | localagentcli/agents/agent_path.py:49-52 | joining succeeds exactly on a valid name and appends it as one segment |
| AgentPath.JoinInjective | localagentcli/agents/agent_path.py:49-52 | equal joined paths have equal parents and equal names |
| AgentPath.NameIsLastSegment | localagentcli/agents/agent_path.py:42-47 | `name` is the last joined segment, and `root` exactly for the root |
| AgentPath.ResolveRelative | localagentcli/agents/agent_path.py:54-64 | resolving a relative reference is joining its segments one by one, and fails exactly when that does |
| AgentPath.ResolveAbsolute | localagentcli/agents/agent_path.py:58-61 | an absolute reference resolves to itself whatever the caller, exactly when it is a valid path |
| CapturedOutput.WritesMerge | localagentcli/models/abstraction.py:219-226 | captured lines depend only on the text written, not on how it was cut into writes |
| CapturedOutput.CapturedOutput.Write | localagentcli/models/abstraction.py:219-226 | the cutting loop leaves exactly the stripped non-blank complete lines and the unfinished rest |
| CapturedOutput.CapturedOutput.Drain | localagentcli/models/abstraction.py:234-243 | returns the kept lines, at the end also the unfinished one, and empties the capture |
| StreamBridge.StreamGenerate | localagentcli/models/abstraction.py:40-61 | the synchronous generator yields exactly the specified sequence of notifications, normalized chunks, flushes and the synthetic done |
| StreamLaws.StreamExact | localagentcli/models/abstraction.py:40-61 | for every backend and normalizer: before a chunk the captured lines, before a done chunk what the normalizer holds back, at the end the remaining text, what is held back, and a done chunk if there has been none |
| StreamLaws.DonesExact | localagentcli/models/abstraction.py:51-61 | a stream has exactly the backend's done chunks in order; without any, and without failure, exactly one, synthetic and last |
| StreamLaws.PrintsDelivered | localagentcli/models/abstraction.py:48-58 | a stream without failure notifies of every printed line, stripped, blank ones left out, once and in order, wherever the chunks cut the text |
| StreamLaws.LinesConserved | localagentcli/models/abstraction.py:48-58 | at every point the lines that have gone out and those that wait are the complete lines of the text printed so far |
| StreamBridge.StreamIsTold | localagentcli/models/abstraction.py:48-61 | the stream is determined by the chunks and the text printed between them, as one text each |
| StreamBridge.PrintsMerge | localagentcli/models/abstraction.py:48-61 | two whole generations with the same chunks and the same text between them stream alike, however the text was cut into writes |
| StreamBridge.FutureIsSync | localagentcli/models/abstraction.py:117-167 | consuming all items the worker will ever put gives the synchronous stream |
| StreamBridge.BridgeRefinesSync | localagentcli/models/abstraction.py:109-170 | under every schedule the output is a prefix of the synchronous stream and the queue stays within 512 items; no turn is possible exactly when the consumer is done, and then the chunks and the exception are those of the synchronous stream |
| StreamBridge.EveryScheduleDelivers | localagentcli/models/abstraction.py:109-170 | every schedule that keeps taking possible turns runs to the end and delivers the synchronous stream |
| Recovery.FailureCounters.Update | localagentcli/agents/recovery.py:166-177 | one failure is counted in its class, and a budget is exhausted when the attempts reach the smaller of the class budget and the loop limit |
| Recovery.RetriesBounded | localagentcli/agents/recovery.py:51-59 | in every order of failure classes at most the sum of max(0, min(budget, limit) - 1) failures are retried, which is 4 by default |
| Recovery.FourRetriesHappen | localagentcli/agents/recovery.py:51-59 | the default bound is reached |
| Recovery.RefusalsClassified | localagentcli/agents/recovery.py:117-128 | denied results are classified as denied and blocked results as blocked, whatever the tool name |
| Recovery.ToolFailureExact | localagentcli/agents/recovery.py:108-136 | the class of a tool failure if and only if its status, and for an error the blocked prefix or the safety phrase, say so; the detail is the error text, else the summary |
| Recovery.ModelFailureExact | localagentcli/agents/recovery.py:96-105 | a model failure is terminal if and only if its text holds one of the phrases in any case |
| ToolBatch.HandleSequential | localagentcli/agents/loop.py:1375-1532 | the sequential loop yields the specified messages, error flag, first failure and trace |
| ToolBatch.SequentialAnswers | localagentcli/agents/loop.py:1375-1532 | one tool message per call, with the call's id, in order |
| ToolBatch.FailureRecorded | localagentcli/agents/loop.py:1431-1433 | a failure is recorded exactly when some result is no success, and the error flag never stands without one |
| ToolBatch.SequentialJustified | localagentcli/agents/loop.py:1399-1504 | every execution follows an approved decision on its own call, or a request for it answered yes |
| ToolBatch.RefusedNotExecuted | localagentcli/safety/layer.py:103-143 | a call that reaches the gate is executed exactly when approved, or when asked for and answered yes; otherwise its result is no success |
| SafetyGate.DecisionExact | localagentcli/safety/exec_policy.py:8-36 | blocked, to be asked or approved, each if and only if boundary, posture, risk, tool and mode say so |
| ToolBatch.ReadOnlyPosture | localagentcli/safety/posture.py:21-27 | if the posture is read-only at every check, only read-only tools are executed |
| ToolBatch.SwitchExact | localagentcli/agents/loop.py:1401-1485 | a tool with side effects runs while the posture is read-only if and only if the posture became read-only after a permitted call with side effects was checked |
| ToolBatch.OvertakenExact | localagentcli/agents/loop.py:1401-1485 | the same for a single call, whose posture was then not read-only at the check |
| ToolBatch.OvertakenInstance | localagentcli/agents/loop.py:1401-1485 | such a call: a write that the user permits, the posture being read-only by the time it runs |
| ParallelBatch.PoolNeverStuck | localagentcli/agents/loop.py:1337-1343 | the bounded pool can always go on until every future has its result |
| ParallelBatch.PoolBounded | localagentcli/agents/loop.py:1336-1342 | in every order at most sixteen calls are in work, and while fewer are the next one can be taken up |
| ParallelBatch.RunPool | localagentcli/agents/loop.py:1337-1343 | the pool at work: workers take calls in the order of submission and begin and end them in any |
| ParallelBatch.HandleParallel | localagentcli/agents/loop.py:1308-1373 | all calls are announced, then executed in the pool's order, then answered and reported in call order |
| ParallelBatch.ParallelProject | localagentcli/agents/loop.py:1317-1371 | in every order of the pool each call is decided, executed, returns and is reported, once each and in this order |
| ParallelBatch.ParallelJustified | localagentcli/agents/loop.py:1317-1343 | in every order of the pool each execution follows the approval of its own call |
| ParallelBatch.TracesDiffer | localagentcli/agents/loop.py:1317-1343 | the trace is never the sequential one: the second call is decided before the first is executed |
| ParallelBatch.EveryOrderAgrees | localagentcli/agents/loop.py:1285-1373 | every order of the pool gives the sequential path's error flag and first failure, each call's own events and the same events in all, and its messages exactly when each tool is registered under the requested name |
| ParallelBatch.HandleToolCalls | localagentcli/agents/loop.py:1276-1283 | an eligible batch takes the parallel path, every other the sequential one |
| ParallelBatch.HandledGuarantees | localagentcli/agents/loop.py:1276-1283 | on both paths and in every order of the pool: one answer per call with its id in order, failures recorded exactly, every execution justified, and only read-only tools if the posture is read-only at every check |
| SafetyGate.BatchGate | localagentcli/agents/loop.py:1276-1483 | on both paths and in every order of the pool each call is executed once if the rules allow it and else never, is asked about once if they demand it and else never, and where a yes is needed the execution follows a yes to its own call |
| SafetyGate.ReportsExact | localagentcli/agents/loop.py:1276-1530 | each call is reported once, after all else that happens to it, with the status it ended with |
| SafetyGate.EligibleExact | localagentcli/agents/loop.py:1285-1300 | a batch goes to the pool if and only if it has several calls, all of usable read-only tools that may run unasked |
| SafetyGate.PathExact | localagentcli/agents/loop.py:1276-1283 | such a batch is decided as a whole before anything runs; any other is worked off call by call |
| SafetyGate.FlagsExact | localagentcli/agents/loop.py:1276-1530 | the error flag is set if and only if a call failed that no rule barred; a failure is recorded if and only if some call was unsuccessful, and it is that of the first |
| SafetyGate.AnswersExact | localagentcli/agents/loop.py:1276-1530 | each call is answered with its id, its name and the payload of its own result, of a denial, or of an error, as the rules say |
| ParallelBatch.HandledSwitchExact | localagentcli/agents/loop.py:1276-1306 | on both paths and in every order of the pool a tool with side effects runs while the posture is read-only if and only if some call of the batch is overtaken; in a parallel batch none is |
| StepLoop.StepRunner.constructor | localagentcli/agents/loop.py:1133-1138 | a step starts with an empty conversation and no failures |
| StepLoop.StepRunner.RecordFailure | localagentcli/agents/loop.py:1165-1190 | a failure is counted, and the step is retried or ended as its budget says |
| StepLoop.StepRunner.RecordBatch | localagentcli/agents/loop.py:1212-1241 | a failed batch is counted against its class, a clean one clears the counters |
| StepLoop.StepRunner.HandleBatch | localagentcli/agents/loop.py:1196-1241 | a batch's messages join the conversation; a failed batch is counted, a clean one clears the counters |
| StepLoop.StepRunner.HandleError | localagentcli/agents/loop.py:1161-1190 | a model error keeps the last non-blank error text and is counted under its class |
| StepLoop.StepRunner.HandleText | localagentcli/agents/loop.py:1243-1263 | a text ends the step with its answer, an empty reply with a summary of what was observed, if anything was |
| StepLoop.StepRunner.HandleReply | localagentcli/agents/loop.py:1161-1263 | an error, a batch of tool calls or a text, each to its own branch |
| StepLoop.StepRunner.OneRound | localagentcli/agents/loop.py:1140-1263 | one turn of the round loop |
| StepLoop.StepRunner.CountCall | localagentcli/agents/loop.py:1140-1263 | a round counts one model call and changes nothing else |
| StepLoop.StepRunner.Run | localagentcli/agents/loop.py:1120-1274 | the whole round loop with its three ways out |
| StepLoop.StepGuarantees | localagentcli/agents/loop.py:1140-1274 | a step makes at most `max_step_rounds` model calls, retries within the limit, leaves a well paired conversation, and reports an exhausted budget only when the last failure has reached it |
| StepLoop.EveryRound | localagentcli/agents/loop.py:1140-1241 | after each single round: one model call per round, retries within the limit, and once the limit is used up the next failure of whatever class ends the step |
| StepLoop.StepSafe | localagentcli/agents/loop.py:1207-1209 | no tool of a step runs without leave of its own call, in whatever order the pool works, and none with side effects if the posture is read-only at every check |
| SafetyGate.StepGate | localagentcli/agents/loop.py:1140-1263 | a step handles exactly the batches that its reached rounds ask for, each by the rules of the gate |
| StepLaws.StepExact | localagentcli/agents/loop.py:1133-1263 | after any number of rounds the conversation is what the reached rounds said; counters, failure and attempts are those of the failures since the last clean batch; the step ends for a spent budget if and only if the last failure has spent it, as the model's or a tool's |
| StepLaws.StepAnswer | localagentcli/agents/loop.py:1238-1263 | a step has an answer if and only if it reaches a reply without calls that has a text or follows something said, and the answer is that text or the observation |
| StepLaws.ObservationsExact | localagentcli/agents/loop.py:1688-1697 | the observation is that of the last tool message, cut to 240 characters |
| StepLoop.StepSwitchExact | localagentcli/agents/loop.py:1140-1263 | a step runs such a tool if and only if a call of one of the rounds it reaches is overtaken |
| Planner.RemoveUndoesAdd | localagentcli/agents/planner.py:94-108 | an added step is pending and stands where it was asked for, the plan stays numbered, and removing it again gives back the plan |
| Planner.ParsePlanUsable | localagentcli/agents/planner.py:236-281 | a parsed plan is never empty, all its steps are pending and its indices increase |
| Planner.PositionExact | localagentcli/agents/planner.py:78-83 | looking up a step's own index finds that step exactly when no earlier step has the same index |
| Planner.UpdateExact | localagentcli/agents/planner.py:85-92 | an update changes the status of the first step with the index, and its result if one is given, and nothing else; an unknown index is refused |
| Planner.NextStepExact | localagentcli/agents/planner.py:71-76 | the next step is the first pending one, and there is none exactly when no step is pending |
| Planner.TaskPlan.constructor | localagentcli/agents/planner.py:63-69 | a plan starts in planning |
| Planner.TaskPlan.Next | localagentcli/agents/planner.py:71-76 | the search loop finds the first pending step |
| Planner.TaskPlan.Update | localagentcli/agents/planner.py:85-92 | changes one step in place; an unknown index is an error that changes nothing |
| Planner.TaskPlan.Add | localagentcli/agents/planner.py:94-103 | inserts after the named step, or at the end, and renumbers |
| Planner.TaskPlan.Remove | localagentcli/agents/planner.py:105-108 | removes the steps with the index and renumbers |
| AgentRun.RunShape | localagentcli/agents/loop.py:160-431 | in every run from a fresh plan each event shows completed steps, at most one other started step, then pending steps; exactly one terminal event, last, agreeing with the plan status; completion only when every step is completed |
| AgentRun.CompletedWorkGrows | localagentcli/agents/loop.py:1722-1741 | between any two events of a run, across any number of replans, the completed descriptions and results only grow by appending |
| AgentRun.CompletionAppends | localagentcli/agents/loop.py:421-425 | completing a step appends exactly its description and summary to the completed work |
| AgentRun.PreservedShape | localagentcli/agents/loop.py:1722-1741 | a replan keeps the completed steps in front, renumbered, and has only pending steps behind them |
| Replanning.ReplanExact | localagentcli/agents/loop.py:1722-1741 | a revised plan is the completed steps, renumbered, and then one pending step for each stripped non-blank text of the planner's reply, or of the fallback; never none |
| Replanning.ParsePlanSays | localagentcli/agents/planner.py:236-281 | a parsed plan has one pending step for each such text, in order |
| Replanning.FailureExact | localagentcli/agents/loop.py:227-408 | a step without an answer is planned anew if and only if a spent budget is to blame on a refused or failing tool or, in the older loop, anything but the model failed too often; else step and plan have failed for the reason shown |
| Replanning.TurnExact | localagentcli/agents/loop.py:205-425 | a turn ends the run as stopped, timed out, complete or failed, each if and only if its condition holds |
| Replanning.WorkExact | localagentcli/agents/loop.py:205-425 | a turn that works on a step completes it with its answer, replans, or fails it, and changes no other step |
| Replanning.NoEmptyPlan | localagentcli/agents/loop.py:1722-1741 | in every run each replanning leaves a pending step and the completed work, and a run that reports the task complete has completed at least one step |
| AgentRun.RunConversation | localagentcli/agents/loop.py:228-229 | through every run, from any plan, a well paired conversation stays so, and its Anthropic form puts each call next to its results and loses nothing |
| AgentRun.RunSafe | localagentcli/agents/loop.py:1301-1306 | in every run, and in every order of the pool, each tool execution follows an approved decision on its own call, or a request for it answered yes; if the posture is read-only at every check only read-only tools ever execute |
| SafetyGate.RunGate | localagentcli/agents/loop.py:1276-1530 | so does every run, for all its batches in order |
| AgentRun.RunSwitchExact | localagentcli/agents/loop.py:205-425 | a run does so if and only if in some turn a call of a round that its step reaches is overtaken |
| AgentRun.SteadyRunSafe | localagentcli/agents/loop.py:205-425 | if in no call the posture changes between check and execution, no tool with side effects ever runs while the posture is read-only |
| AgentRun.AgentLoop.constructor | localagentcli/agents/loop.py:177-186 | the events and plan a run starts with, with and without a given plan |
| AgentRun.AgentLoop.Emit | localagentcli/agents/loop.py:185-186 | an event is yielded with the plan as it stands |
| AgentRun.AgentLoop.Finish | localagentcli/agents/loop.py:189-203 | a run ends with one terminal event and its plan status |
| AgentRun.AgentLoop.FinishStopped | localagentcli/agents/loop.py:422-431 | a stopped run skips the interrupted step only if another is pending |
| AgentRun.AgentLoop.ReplacePlan | localagentcli/agents/loop.py:242-269 | replanning replaces the plan object by the revised one with the completed steps kept |
| AgentRun.AgentLoop.Fail | localagentcli/agents/loop.py:277-309 | a failed step ends the run: step, plan and three events |
| AgentRun.AgentLoop.HandleFailure | localagentcli/agents/loop.py:234-419 | the branches after a step without an answer, in order |
| AgentRun.AgentLoop.Conclude | localagentcli/agents/loop.py:205-425 | what the end of a step leads to: a stop, the failure branches, or a completed step |
| AgentRun.AgentLoop.Work | localagentcli/agents/loop.py:205-425 | one step from its start to completion, failure or stop |
| AgentRun.AgentLoop.Turn | localagentcli/agents/loop.py:188-425 | one turn of the plan loop |
| AgentRun.AgentLoop.RunTurns | localagentcli/agents/loop.py:188-431 | the plan loop for as many turns as the world provides keeps what holds between turns |
| AgentRun.RunTask | localagentcli/agents/loop.py:126-431 | a whole task from the constructor's clamped settings on: if it ends, one terminal event is last, and done means every step completed |
| Anthropic.GatherResults | localagentcli/providers/anthropic.py:604-617 | the inner loop takes exactly the maximal run of tool messages |
| Anthropic.FormatOne | localagentcli/providers/anthropic.py:597-647 | one turn of the grouping loop |
| Anthropic.FormatMessages | localagentcli/providers/anthropic.py:586-649 | the index-advancing loop yields the system texts joined by blank lines and the specified API messages |
| Anthropic.FormatLossless | localagentcli/providers/anthropic.py:586-649 | for every conversation, reading the API messages back gives each non-system message once, in order |
| Anthropic.UsesExact | localagentcli/providers/anthropic.py:623-641 | each use block has its own call's id, name and arguments |
| Anthropic.SystemPartsSnoc | localagentcli/providers/anthropic.py:599-602 | the system texts are those of the system messages, in order |
| Anthropic.BlankLinesSnoc | localagentcli/providers/anthropic.py:649 | each further system text stands behind a blank line |
| Anthropic.PairedMeets | localagentcli/providers/anthropic.py:604-644 | a well paired conversation is formatted with every tool_use message immediately followed by one user message with the same ids in order, and results stand nowhere else |
| OpenAiStream.IngestExact | localagentcli/providers/openai.py:40-71 | with explicit indices a call is present exactly when it has fragments, with its last non-empty id and name and its arguments in order, and is announced exactly once, under its first name, if it has one |
| OpenAiStream.FinalizedExact | localagentcli/providers/openai.py:73-74 | the finished list has one call per index, ascending, each with exactly what its fragments say |
| OpenAiStream.InterleavingIrrelevant | localagentcli/providers/openai.py:40-74 | any interleaving that keeps each index's own order gives the same calls and the same announcement per index |
| OpenAiStream.CommuteExactly | localagentcli/providers/openai.py:43-66 | for all calls there are and any two fragments, their order makes no difference if and only if they commute: a condition on their indices, ids, names and arguments and on which calls exist |
| OpenAiStream.IndexedCommute | localagentcli/providers/openai.py:43 | fragments with different explicit indices always commute |
| OpenAiStream.ExchangeExact | localagentcli/providers/openai.py:40-66 | exchanging neighbours that commute where they stand changes nothing that is gathered; at the end of a delivery only such an exchange does |
| OpenAiStream.RearrangementIrrelevant | localagentcli/providers/openai.py:40-74 | any rearrangement by such exchanges, with or without indices, delivers the same calls |
| OpenAiStream.DeliveriesAgreeExactly | localagentcli/providers/openai.py:40-74 | any two whole deliveries, with or without indices, gather the same calls if and only if at every place their fragments come to the same id, name and arguments |
| OpenAiStream.ExchangeAnywhere | localagentcli/providers/openai.py:40-74 | so neighbours anywhere in a delivery may change places if and only if every place still comes to the same call |
| OpenAiStream.IndexNeeded | localagentcli/providers/openai.py:43 | an instance: a fragment without an index falls on an existing call or opens its own, depending on the order |
| OpenAiStream.ParseShape | localagentcli/providers/openai.py:563-663 | a line's chunks hold at most one done, last, exactly when the line ends the stream |
| OpenAiStream.StreamShape | localagentcli/providers/openai.py:146-180 | a stream is what its lines show, in order, up to the first line that ends it, then that end and nothing more |
| OpenAiStream.StreamDelivers | localagentcli/providers/openai.py:157-180 | done is last and unique and missing only when the response just stops; the finished calls come once, together, right before it |
| OpenAiTexts.LeadExact | localagentcli/providers/openai.py:611-638 | a line's text chunks are its content, then each reasoning, then its refusal |
| OpenAiTexts.TextsDelivered | localagentcli/providers/openai.py:563-662 | a stream carries exactly the texts of the lines it reads, in order |
| OpenAiTexts.EndExact | localagentcli/providers/openai.py:140-190 | a stream ends as its first ending line says, with its finish reason or error, or else as the response ends |
| OpenAiStream.FragmentationIrrelevant | localagentcli/providers/openai.py:157-162 | two streams that end alike and carry the same fragments per index deliver the same calls, however the fragments are spread over lines and interleaved |
| OpenAiStream.AnnouncedOnce | localagentcli/providers/openai.py:60-71 | the announcements of a stream are those of its fragments in order, one for each named index |
| OpenAiStream.ToolCallAccumulator.constructor | localagentcli/providers/openai.py:34-38 | an accumulator starts empty |
| OpenAiStream.ToolCallAccumulator.Take | localagentcli/providers/openai.py:40-71 | the ingest loop updates calls and announced indices in place and returns the announcements |
| OpenAiStream.ToolCallAccumulator.TakeOne | localagentcli/providers/openai.py:43-71 | one fragment: its place, the updated call and its announcement if it is the first to name it |
| OpenAiStream.ToolCallAccumulator.ParseLine | localagentcli/providers/openai.py:563-663 | one line's chunks and its effect on the accumulator |
| OpenAiStream.Emit | localagentcli/providers/openai.py:159-162 | chunks of a line are yielded up to the first that is done |
| OpenAiStream.StreamGenerate | localagentcli/providers/openai.py:146-180 | the streaming loop yields exactly the specified chunks |
| Rollback.BackupNumber | localagentcli/safety/rollback.py:67-68 | backup names with different numbers differ, even when the flattened paths coincide |
| Rollback.Pad3Width | localagentcli/safety/rollback.py:67 | backup numbers are padded to three digits and never cut |
| Rollback.BackupNamePlain | localagentcli/safety/rollback.py:170-171 | a backup name is a plain file name and never the log's |
| Rollback.BackupNameTells | localagentcli/safety/rollback.py:170-171 | behind its number a backup name shows the path, with underscores for the separators |
| Rollback.BackupKeeps | localagentcli/safety/rollback.py:62-71 | a new backup overwrites none that a remaining entry needs |
| Rollback.RecordsExactly | localagentcli/safety/layer.py:172-205 | for every state: a call adds exactly one entry, for its target, if and only if it did not raise, succeeded, and its target existed before or exists afterwards; a modification exactly when it existed, with a backup of its content; no other operation adds one |
| Rollback.RunInv | localagentcli/safety/rollback.py:62-154 | through any run of tool calls, undos, outside edits and reopenings the numbered entries and backups stand for a plain stack of changed paths with what they held before |
| Rollback.UndoAllRestores | localagentcli/safety/rollback.py:123-128 | after any such run undoing everything succeeds, gives each changed path what it held just before the earliest change left, or removes it, and touches no other path |
| Rollback.UndoLastRestores | localagentcli/safety/rollback.py:101-121 | a single undo puts back the path of the latest change, changes no other and fails only when nothing is left |
| Rollback.CallUndone | localagentcli/safety/rollback.py:101-121 | undoing right after a recorded call gives its target its earlier content, or absence, and leaves the log of before the call |
| Rollback.RollbackManager.constructor | localagentcli/safety/rollback.py:55-60 | opening a directory loads the entries of its log |
| Rollback.RollbackManager.BackupFile | localagentcli/safety/rollback.py:62-71 | copies an existing file under the next number; refused for a missing one |
| Rollback.RollbackManager.AppendEntry | localagentcli/safety/rollback.py:134-154 | appends one numbered entry and rewrites the log |
| Rollback.RollbackManager.UndoLastChange | localagentcli/safety/rollback.py:101-121 | pops the last entry, reverts it and rewrites the log; a missing backup leaves the log as it was |
| Rollback.RollbackManager.UndoEverything | localagentcli/safety/rollback.py:123-128 | undoes in reverse order until the log is empty or an undo fails, and returns the undone entries |
| Rollback.SafetyHooks.constructor | localagentcli/safety/layer.py:85-87 | no change is pending at first |
| Rollback.SafetyHooks.Before | localagentcli/safety/layer.py:172-188 | backs up an existing target and notes the pending change |
| Rollback.SafetyHooks.After | localagentcli/safety/layer.py:190-205 | records the pending change only after a success, as a modification or a creation |
| Rollback.SafetyHooks.Execute | localagentcli/agents/loop.py:1301-1306 | a tool between its hooks is one call of the run model, also when it raises, and the store goes on standing for the stack of changes |
| Rollback.Perform | localagentcli/safety/rollback.py:55-128 | any operation of a session on the objects is the step of the run model and keeps its invariant, for any action keys that settle the path of their call |
| Rollback.UndoSession | localagentcli/safety/rollback.py:123-128 | a whole session on the objects, then everything undone: each changed path holds what it held before its earliest change left, and every other path is untouched |
| ContextDiff.DiffValues | localagentcli/session/context_diff.py:135-155 | the loop over the union of keys computes the structural difference |
| ContextDiff.NoneExactlyEqual | localagentcli/session/context_diff.py:148-155 | no difference is reported exactly when the snapshots are equal |
| ContextDiff.Mirror | localagentcli/session/context_diff.py:135-155 | a difference read with its markers swapped is the difference of the swapped snapshots |
| ContextDiff.IsDeltaExact | localagentcli/session/context_diff.py:135-155 | a decidable shape holds exactly of the differences that some target has |
| ContextDiff.ApplyInverts | localagentcli/session/context_diff.py:135-155 | on an unambiguous snapshot applying the difference gives the current snapshot |
| ContextDiff.UnapplyInverts | localagentcli/session/context_diff.py:135-155 | read backwards, the difference gives the previous snapshot |
| ContextDiff.DeterminedExactly | localagentcli/session/context_diff.py:135-155 | the differences of a snapshot determine their targets if and only if it is unambiguous, and exactly then applying them gives the targets |
| ContextDiff.PlainSnapshotsInvert | localagentcli/session/context_diff.py:138-154 | snapshots without marker keys: differences can be applied and un-applied |
| ContextDiff.SharedDifference | localagentcli/session/context_diff.py:138-144 | the restriction is needed: two targets of one snapshot share their difference |
| ContextDiff.ReplayRebuilds | localagentcli/session/context_diff.py:52-57 | replaying the changes of any run of the tracker rebuilds its baseline |
| ContextDiff.ContextDiffTracker.constructor | localagentcli/session/context_diff.py:38-39 | a tracker starts from the given baseline |
| ContextDiff.ContextDiffTracker.Compute | localagentcli/session/context_diff.py:52-57 | returns the change since the baseline, empty exactly when nothing changed, and advances the baseline |
| ContextDiff.Track | localagentcli/session/context_diff.py:38-57 | a tracker over a series of turns: its recorded changes alone rebuild its baseline |
| Replay.CollectExact | localagentcli/session/replay.py:34-58 | the submissions are the ids with a prompt, each once, with their last prompt and last completion |
| Replay.PromptExact | localagentcli/session/replay.py:121-133 | a line is a prompt if and only if it is a user's turn with an id and a text that is not blank |
| Replay.CompletionExact | localagentcli/session/replay.py:135-153 | a line is a completion if and only if it is a completed turn with an id and a text: its final text, its summary if that is absent, or its message if that leaves nothing; a final text of blanks hides the summary |
| Replay.ReplayGuarantees | localagentcli/session/replay.py:60-118 | the old history is a prefix; every complete submission stands as an adjacent pair; growth is one or two messages per recovered pair; nothing else is added; a second pass changes nothing |
| Replay.AppendedFirstExact | localagentcli/session/replay.py:60-108 | whatever was appended to a history before a pass, the pass gives what it gives on the history itself if and only if what was appended is how that result goes on |
| Replay.PartFirstExact | localagentcli/session/replay.py:24-118 | for every history, log and extension, whatever that completes or changes: replaying the prefix first makes no difference if and only if the result of the whole log begins with that of the prefix |
| Replay.PartThenWhole | localagentcli/session/replay.py:24-118 | a log prefix first and then the whole log is the whole log, when the extension keeps the data of the prefix's first submissions and no later one was complete in the prefix; those may be completed or changed in any way |
| Replay.CompletedLaterExact | localagentcli/session/replay.py:34-108 | when the extension completes one submission of the prefix, replaying the prefix first makes no difference if and only if those behind it add nothing, or what they add begins with its own recovery |
| Replay.ChangedDiffers | localagentcli/session/replay.py:50-108 | when both the prefix and the whole log recover the first submission whose texts they disagree on, replaying the prefix first makes a difference |
| Replay.ChangedPromptDiffers | localagentcli/session/replay.py:50-52 | a later prompt for an already recovered submission makes a difference, for any texts |
| Replay.Session.constructor | localagentcli/session/replay.py:24-36 | a session with its history and message count |
| Replay.CollectLog | localagentcli/session/replay.py:34-58 | the loop over the log collects prompts, completions and the order of submissions |
| Replay.Session.Replay | localagentcli/session/replay.py:34-118 | both loops: history, number of recovered pairs and message count |
| Replay.Session.RecoverOne | localagentcli/session/replay.py:60-108 | one submission: nothing when it is incomplete or its pair is there, else the missing half or the pair |
| Replay.Session.FindPair | localagentcli/session/replay.py:163-174 | found exactly when an adjacent user and assistant message have the two texts |
| Replay.Reconcile | localagentcli/session/replay.py:24-118 | after one pass over its log a session recovers nothing in a second one, and its history stays that of the first |
| Approval.PolicyAnswersEveryRequest | localagentcli/runtime/session_runtime.py:355-395 | under the automatic policies every decision the loop receives is a yes or a no as the policy says, at most one request is open, and a decision is supplied only when the loop is already waiting |
| Approval.StepKeeps | localagentcli/runtime/session_runtime.py:355-395 | each turn of the event loop answers an open request with the policy's answer or brings it closer to its answer, unless its consumer holds it |
| Approval.EveryRequestAnswered | localagentcli/agents/loop.py:146-158 | from every state of every run every open request gets the policy's answer, however other tasks are scheduled, as long as the consumer comes back |
| Approval.OverOnlyAtEnd | localagentcli/runtime/session_runtime.py:340-436 | under every policy the drain is over only after the generator has ended |
| Approval.HeldOnlyByConsumer | localagentcli/runtime/session_runtime.py:350-355 | under every policy the drain waits at an event only while its consumer holds it |
| Approval.ShellNeverAnswers | localagentcli/runtime/session_runtime.py:396-409 | under the shell policy no request is ever answered, and once the user has decided the loop is stuck |
| Approval.StuckForever | localagentcli/agents/loop.py:152-158 | a stuck loop stays stuck in every continuation |
| Approval.StuckReachable | localagentcli/runtime/session_runtime.py:459-474 | two turns reach that state, whichever way the user decides |
| Approval.ResponsiveExactly | localagentcli/runtime/session_runtime.py:330-474 | every request of every run is answered if and only if the policy is not the shell's |
| Approval.EventLoop.constructor | localagentcli/runtime/session_runtime.py:338-340 | the draining task is ready and the agent has not run yet |
| Approval.EventLoop.SupplyToolApproval | localagentcli/agents/loop.py:146-150 | resolves the wait if there is one and wakes its task; otherwise does nothing |
| Approval.EventLoop.RequestApproval | localagentcli/runtime/session_runtime.py:355-409 | the automatic policies create the resuming task and yield once; the shell policy pauses |
| Approval.EventLoop.EnterOrLeaveWait | localagentcli/agents/loop.py:152-158 | a resumed request enters the wait; a resolved wait hands over its decision |
| Approval.EventLoop.DrainAgentEvents | localagentcli/runtime/session_runtime.py:342-436 | the event loop of the drain until it waits, pauses or ends |
| Approval.EventLoop.NextEvent | localagentcli/runtime/session_runtime.py:343-350 | asking for the next event, or going on asking |
| Approval.EventLoop.JoinResumeTask | localagentcli/runtime/session_runtime.py:369-375 | awaiting the resuming task and taking over its event |
| Approval.EventLoop.RunRuntimeTask | localagentcli/runtime/session_runtime.py:342-474 | what the draining task does when it runs, from each place it can be at |
| Approval.EventLoop.FinishResumeTask | localagentcli/runtime/session_runtime.py:38-40 | the resuming task ends with one event and wakes whoever awaits it |
| Approval.EventLoop.RunResumeTask | localagentcli/runtime/session_runtime.py:38-40 | what the resuming task does when it runs |
| Approval.EventLoop.Turn | localagentcli/runtime/session_runtime.py:363-369 | arrivals go to the back of the ready queue and the front task runs; the invariant of the policy is kept |
| Approval.RunEventLoop | localagentcli/runtime/session_runtime.py:330-474 | an event loop from its start: every decision received is the policy's, and under the shell policy none is |
| McpNaming.SanitizeExact | localagentcli/mcp/client.py:806-809 | a sanitized name is a non-empty word without outer underscores, and exactly such words are left alone |
| McpNaming.SanitizeKeeps | localagentcli/mcp/client.py:806-809 | sanitizing keeps what stands between the first and the last alphanumeric character, with underscores for all else, or says "tool" |
| McpNaming.QualifiedExact | localagentcli/mcp/client.py:812-824 | a name is the plain one while that is free, and else the first free one with the digest and a number |
| McpNaming.DiscoveredPrefixed | localagentcli/mcp/client.py:739-759 | every name begins with the prefix, its own server and the sanitized name of its own tool |
| McpNaming.ListedFront | localagentcli/mcp/client.py:743-745 | tools are listed server by server |
| McpNaming.Pigeonhole | localagentcli/mcp/client.py:820-823 | if the first n candidates are all used there are at least n used names |
| McpNaming.QualifiedName | localagentcli/mcp/client.py:812-824 | the name is unused, and is the plain one whenever that is free |
| McpNaming.MakeQualifiedToolName | localagentcli/mcp/client.py:812-824 | the renaming loop ends for every finite set of used names, with the first free candidate |
| McpNaming.DiscoveryExact | localagentcli/mcp/client.py:739-759 | every pass over any servers and tools gives pairwise distinct names with exactly one table entry per tool, its own, and asks approval for tools that are not read-only |
| McpNaming.PlainNamesCollide | localagentcli/mcp/client.py:815 | without renaming tools of different servers can get one name |
| McpNaming.McpToolProvider.constructor | localagentcli/mcp/client.py:605 | the table starts empty |
| McpNaming.McpToolProvider.Register | localagentcli/mcp/client.py:746-757 | one tool gets an unused name, a table entry and a specification |
| McpNaming.McpToolProvider.RegisterServer | localagentcli/mcp/client.py:745-757 | the tools of one server, in order |
| McpNaming.McpToolProvider.BuildDynamicToolSpecs | localagentcli/mcp/client.py:739-759 | a pass forgets the previous table and its result depends only on the listed tools |

## Left out

- Sub-agents: timestamps, nicknames, roles and `wait_for_targets`; a worker that closes its own
  agent from its own thread; exceptions outside `Exception`, which would end a thread in the
  middle of a call; the refusal to address `/root` itself. The join timeout is any moment.
- The lock of the manager is one value and each section under it one step; the queue of Python
  is a sequence whose put and get are single steps.
- Loading a snapshot: how a number is read from text and how other objects print are parameters;
  a snapshot whose paths are not all strings. Statuses are compared in ASCII lower case, and no other
  character lower-cases into the words compared with.
- The agents of the manager's table are values in a list, so that two paths never share an object
  is a lemma, not aliasing.
- Stream bridge: the 3600-second limits on puts, cancellation and early close of the consumer,
  prints of other code while output is redirected, and the remote stream, which is the
  synchronous one with awaits. The normalizer is an arbitrary state machine.
- Agent loop: prompts, generation profiles, usage budgets, the text of plan summaries and reasons,
  reasoning and retry notices, and the async twin of the loop. The planner's and the
  guardian's answers are inputs. That the regular expressions classify a command as risky is a
  flag of the call. Exceptions from tools are outside the loop; the rollback model has them.
- AgentRun.RunShape: takes plans without repeated indices, which parsing, renumbering and the
  bootstrap plan all give; otherwise an update reaches the first such step (`PositionExact`).
- The number of turns of a run is not bounded, because replanning is not bounded in the code.
- Recovery.RefusalsClassified: covers ASCII letters and the one other character that lower-cases
  to ASCII; other Unicode case folding cannot produce the phrases looked for.
- ToolBatch.ReadOnlyPosture: speaks of the posture at the checks, where the code reads it;
  SwitchExact says when that lets a tool run after a later switch.
- ParallelBatch.EveryOrderAgrees: assumes that a tool's result depends on its call only and that
  the safety state does not change between the two checks of an eligible batch. Tools that run at
  the same time are a sequence of beginnings and ends.
- Anthropic: arguments are parsed by an arbitrary function. Streamed Anthropic events are not modelled.
- OpenAI streams: HTTP, retries and JSON reading; lines arrive parsed. Extra fields of done
  chunks such as usage are not carried. A `function` value that is not an object is an error in
  the code and does not occur here.
- Rollback: timestamps, summaries, directories, permissions and encodings; file names are
  canonical and nothing else writes the backup directory. A log entry with an unknown action
  cannot be built here.
- Rollback.SafetyHooks.Before: one target at most, which is all that the code's target list yields.
- Context differences: fingerprints and rendering. Equality is structural, so that Python's
  `1 == True` does not hold here, and numbers are compared by value.
- Replay: timestamps and the metadata of recovered messages, and reading the log file.
- Approval: interrupts and cancelled waits; a turn in which two outside events wake the same task;
  the sync event iterator; the queue of submitted operations beyond the decision itself. A
  decision that turns on autonomous mode shows only in which later calls ask at all.
- MCP: transports, schemas and execution; which characters are alphanumeric and the hash are
  parameters. A server that fails while listing its tools is not modelled.
- Session storage in SQLite, the boundary check of paths, command surfaces, installers, plugins,
  skills and the model catalog: input, output and library semantics, or easy members only.
