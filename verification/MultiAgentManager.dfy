/** The manager around the sub-agents: the path table, the generated names and the lock.

    The manager lock is one value, `holder`. A close holds it across the joins, and in
    that window only the lock-free sections of worker threads can run. */
module MultiAgentManager {
  import opened Text
  import opened MultiAgent
  import opened MultiAgentRuns
  import Paths = AgentPath

  datatype Holder =
    | Free
    | Closing(todo: seq<nat>, joining: bool, clearing: bool)   // inside close_agent, shutdown or clear

  /** `agents` lists every agent object ever created; `table` is `_agents`. */
  datatype Manager = Manager(
    agents: seq<Agent>,
    table: map<string, nat>,
    counter: nat,
    limit: nat,
    holder: Holder)

  /** One entry of a persisted snapshot, with its fields already normalized. */
  datatype Entry = Entry(path: string, status: Status, error: string, count: nat)

  datatype Action =
    | Spawn(task: string, parent: string, name: string)
    | SendTo(path: string, text: string)
    | ResumeAt(path: string, override: Option<string>)
    | CloseAgents(order: seq<nat>, clearing: bool)
    | JoinStart
    | JoinEnd
    | Release
    | Load(entries: seq<Entry>)
    | Worker(i: nat, e: Event)

  // ---------- generated names ----------

  const PREFIX := "agent_"

  function GeneratedName(n: nat): string {
    PREFIX + Decimal(n)
  }

  /** `_maybe_track_generated_name`. */
  function TrackName(counter: nat, name: string): nat {
    if PREFIX <= name then
      var suffix := name[|PREFIX|..];
      if suffix != "" && AllDigits(suffix) && Value(suffix) > counter then Value(suffix) else counter
    else counter
  }

  // ---------- operations ----------

  datatype SpawnError = EmptyTask | LimitReached | BadPath(error: Paths.PathError) | AlreadyExists

  /** The segment of a new agent and the counter after choosing it. */
  function ChooseSegment(m: Manager, name: string): (string, nat) {
    if Strip(name) != "" then (Strip(name), m.counter) else (GeneratedName(m.counter + 1), m.counter + 1)
  }

  function SpawnAgent(m: Manager, task: string, parent: string, name: string): (Manager, Option<SpawnError>) {
    if Strip(task) == "" then (m, Some(EmptyTask))
    else if |m.table| >= m.limit then (m, Some(LimitReached))
    else if Paths.FromString(parent).Err? then (m, Some(BadPath(Paths.FromString(parent).error)))
    else
      var (segment, counter) := ChooseSegment(m, name);
      var named := m.(counter := counter);
      match Paths.JoinName(parent, segment)
      case Err(e) => (named, Some(BadPath(e)))
      case Ok(key) =>
        if key in m.table then (named, Some(AlreadyExists))
        else (named.(agents := m.agents + [Spawned(Strip(task))], table := m.table[key := |m.agents|]), None)
  }

  /** The loop of `load_snapshot` over the sorted entries; a bad path is skipped. */
  function LoadEntries(m: Manager, entries: seq<Entry>): Manager {
    if entries == [] then m
    else LoadEntry(LoadEntries(m, entries[..|entries| - 1]), entries[|entries| - 1])
  }

  function LoadEntry(m: Manager, entry: Entry): Manager {
    if Paths.FromString(entry.path).Err? then m
    else
      m.(agents := m.agents + [LoadedAgent(entry.status, entry.error, entry.count)],
         table := m.table[entry.path := |m.agents|],
         counter := TrackName(m.counter, Paths.Name(entry.path)))
  }

  function LoadSnapshot(m: Manager, entries: seq<Entry>): Manager {
    LoadEntries(m.(table := map[]), entries)
  }

  function Touch(m: Manager, i: nat, a: Agent): Manager
    requires i < |m.agents|
  {
    m.(agents := m.agents[i := a])
  }

  // ---------- the transition system ----------

  predicate Wellformed(m: Manager) {
    && (forall i | 0 <= i < |m.agents| :: Shape(m.agents[i]))
    && (forall k | k in m.table :: m.table[k] < |m.agents|)
  }

  predicate CanRun(m: Manager, x: Action)
    requires Wellformed(m)
  {
    match x
    case Spawn(_, _, _) => m.holder.Free?
    case SendTo(path, text) =>
      m.holder.Free? && path in m.table && Strip(text) != "" && Enabled(m.agents[m.table[path]], Send(Strip(text)))
    case ResumeAt(path, override) =>
      m.holder.Free? && path in m.table && Enabled(m.agents[m.table[path]], Resume(override))
    case CloseAgents(order, clearing) =>
      && m.holder.Free?
      && (forall i | 0 <= i < |order| :: order[i] in m.table.Values)
      && (clearing ==> forall k | k in m.table :: m.table[k] in order)
    case JoinStart =>
      && m.holder.Closing? && !m.holder.joining && m.holder.todo != []
      && m.holder.todo[0] < |m.agents| && Enabled(m.agents[m.holder.todo[0]], Close)
    case JoinEnd =>
      && m.holder.Closing? && m.holder.joining && m.holder.todo != []
      && m.holder.todo[0] < |m.agents| && Enabled(m.agents[m.holder.todo[0]], CloseDone)
    case Release => m.holder.Closing? && !m.holder.joining && m.holder.todo == []
    case Load(_) => m.holder.Free?
    case Worker(i, e) =>
      i < |m.agents| && ThreadOf(e).Some? && (m.holder.Free? || LockFree(e)) && Enabled(m.agents[i], e)
  }

  function Act(m: Manager, x: Action): Manager
    requires Wellformed(m) && CanRun(m, x)
  {
    match x
    case Spawn(task, parent, name) => SpawnAgent(m, task, parent, name).0
    case SendTo(path, text) =>
      var i := m.table[path];
      Touch(m, i, Next(m.agents[i], Send(Strip(text))))
    case ResumeAt(path, override) =>
      var i := m.table[path];
      Touch(m, i, Next(m.agents[i], Resume(override)))
    case CloseAgents(order, clearing) => m.(holder := Closing(order, false, clearing))
    case JoinStart =>
      var i := m.holder.todo[0];
      Touch(m, i, Next(m.agents[i], Close)).(holder := m.holder.(joining := true))
    case JoinEnd =>
      var i := m.holder.todo[0];
      Touch(m, i, Next(m.agents[i], CloseDone))
        .(holder := m.holder.(todo := m.holder.todo[1..], joining := false))
    case Release => m.(table := if m.holder.clearing then map[] else m.table, holder := Free)
    case Load(entries) => LoadSnapshot(m, entries)
    case Worker(i, e) => Touch(m, i, Next(m.agents[i], e))
  }

  function EmptyManager(limit: nat): (m: Manager)
    ensures ManagerInv(m)
  {
    Manager([], map[], 0, if limit < 1 then 1 else limit, Free)
  }

  // ---------- every agent object of every manager run is an agent run ----------

  ghost predicate Reachable(a: Agent) {
    exists o, es :: Origin(o) && Shape(o) && Run(o, es) == Some(a)
  }

  predicate Stopped(a: Agent) {
    a.stop && a.status == Shutdown
  }

  /** Whose close is under way, if the lock is held; and that a clear misses no agent. */
  predicate LockInv(m: Manager)
    requires Wellformed(m)
  {
    match m.holder
    case Free => forall i | 0 <= i < |m.agents| :: !m.agents[i].closing
    case Closing(todo, joining, clearing) =>
      && (forall i | 0 <= i < |todo| :: todo[i] < |m.agents|)
      && (joining ==> todo != [])
      && (forall i | 0 <= i < |m.agents| :: m.agents[i].closing <==> joining && todo[0] == i)
      && (clearing ==> forall k | k in m.table :: m.table[k] in todo || Stopped(m.agents[m.table[k]]))
  }

  ghost predicate ManagerInv(m: Manager) {
    && Wellformed(m) && LockInv(m)
    && (forall i | 0 <= i < |m.agents| :: Reachable(m.agents[i]))
    && (forall k, l | k in m.table && l in m.table :: m.table[k] == m.table[l] ==> k == l)
    && (forall k | k in m.table :: Paths.ValidateAbsolute(k).None?)
  }

  lemma ReachableNext(a: Agent, e: Event)
    requires Reachable(a) && Shape(a) && Enabled(a, e)
    ensures Shape(Next(a, e)) && Reachable(Next(a, e))
  {
    ShapeKept(a, e);
    var o, es :| Origin(o) && Shape(o) && Run(o, es) == Some(a);
    assert (es + [e])[..|es|] == es;
    assert Run(o, es + [e]) == Some(Next(a, e));
  }

  lemma ReachableOrigin(a: Agent)
    requires Origin(a)
    ensures Shape(a) && Reachable(a)
  {
    OriginInv(a);
    assert Run(a, []) == Some(a);
  }

  lemma ReachableInv(a: Agent)
    requires Reachable(a)
    ensures Inv(a)
  {
    var o, es :| Origin(o) && Shape(o) && Run(o, es) == Some(a);
    RunInv(o, es);
  }

  /** The agents and paths part of the invariant, whatever happens to the lock. */
  lemma TouchReach(m: Manager, i: nat, a: Agent, holder: Holder)
    requires ManagerInv(m) && i < |m.agents| && Shape(a) && Reachable(a)
    ensures var n := Touch(m, i, a).(holder := holder); Wellformed(n) && (LockInv(n) ==> ManagerInv(n))
  {
  }

  lemma TouchInv(m: Manager, i: nat, e: Event, holder: Holder)
    requires ManagerInv(m) && i < |m.agents| && Enabled(m.agents[i], e)
    ensures Shape(Next(m.agents[i], e))
    ensures var n := Touch(m, i, Next(m.agents[i], e)).(holder := holder);
            Wellformed(n) && (LockInv(n) ==> ManagerInv(n))
  {
    ReachableNext(m.agents[i], e);
    TouchReach(m, i, Next(m.agents[i], e), holder);
  }

  /** A thread's step leaves a close under way as it is; without the lock it leaves status and
      stop flag too. */
  lemma ThreadStepLock(a: Agent, e: Event)
    requires Shape(a) && Enabled(a, e) && ThreadOf(e).Some?
    ensures Next(a, e).closing == a.closing
    ensures LockFree(e) ==> Next(a, e).stop == a.stop && Next(a, e).status == a.status
  {
  }

  lemma WorkerLock(m: Manager, i: nat, e: Event)
    requires ManagerInv(m) && i < |m.agents| && ThreadOf(e).Some? && (m.holder.Free? || LockFree(e))
    requires Enabled(m.agents[i], e)
    ensures ManagerInv(Touch(m, i, Next(m.agents[i], e)))
  {
    var a := Next(m.agents[i], e);
    TouchInv(m, i, e, m.holder);
    ThreadStepLock(m.agents[i], e);
    SameLock(m, i, a);
    assert Touch(m, i, a).(holder := m.holder) == Touch(m, i, a);
  }

  lemma SameLock(m: Manager, i: nat, a: Agent)
    requires Wellformed(m) && LockInv(m) && i < |m.agents| && Shape(a) && a.closing == m.agents[i].closing
    requires m.holder.Closing? ==> a.stop == m.agents[i].stop && a.status == m.agents[i].status
    ensures Wellformed(Touch(m, i, a)) && LockInv(Touch(m, i, a))
  {
  }

  lemma ClientLock(m: Manager, i: nat, e: Event)
    requires ManagerInv(m) && m.holder.Free? && i < |m.agents| && Enabled(m.agents[i], e) && (e.Send? || e.Resume?)
    ensures ManagerInv(Touch(m, i, Next(m.agents[i], e)))
  {
    TouchInv(m, i, e, m.holder);
  }

  lemma JoinStartLock(m: Manager)
    requires ManagerInv(m) && CanRun(m, JoinStart)
    ensures ManagerInv(Act(m, JoinStart))
  {
    TouchInv(m, m.holder.todo[0], Close, m.holder.(joining := true));
  }

  lemma JoinEndLock(m: Manager)
    requires ManagerInv(m) && CanRun(m, JoinEnd)
    ensures ManagerInv(Act(m, JoinEnd))
  {
    var (i, rest) := (m.holder.todo[0], m.holder.todo[1..]);
    ReachableInv(m.agents[i]);
    TouchInv(m, i, CloseDone, m.holder.(todo := rest, joining := false));
    assert Stopped(Next(m.agents[i], CloseDone));
    assert forall j | j in m.holder.todo :: j == i || j in rest;
  }

  lemma SpawnInv(m: Manager, task: string, parent: string, name: string)
    requires ManagerInv(m) && m.holder.Free?
    ensures ManagerInv(SpawnAgent(m, task, parent, name).0)
  {
    var (n, error) := SpawnAgent(m, task, parent, name);
    if error.None? {
      AddInv(m.(counter := n.counter), Paths.JoinName(parent, ChooseSegment(m, name).0).value, Spawned(Strip(task)));
    }
  }

  lemma AddInv(m: Manager, key: string, a: Agent)
    requires ManagerInv(m) && m.holder.Free? && key !in m.table && Paths.ValidateAbsolute(key).None? && Origin(a)
    ensures ManagerInv(m.(agents := m.agents + [a], table := m.table[key := |m.agents|]))
  {
    ReachableOrigin(a);
  }

  lemma {:induction false} LoadInv(m: Manager, entries: seq<Entry>)
    requires ManagerInv(m) && m.holder.Free?
    ensures ManagerInv(LoadEntries(m, entries)) && LoadEntries(m, entries).holder.Free?
  {
    if entries != [] {
      var entry := entries[|entries| - 1];
      LoadInv(m, entries[..|entries| - 1]);
      ReachableOrigin(LoadedAgent(entry.status, entry.error, entry.count));
    }
  }

  lemma ManagerInvKept(m: Manager, x: Action)
    requires ManagerInv(m) && CanRun(m, x)
    ensures ManagerInv(Act(m, x))
  {
    match x
    case Spawn(task, parent, name) => SpawnInv(m, task, parent, name);
    case SendTo(path, text) => ClientLock(m, m.table[path], Send(Strip(text)));
    case ResumeAt(path, override) => ClientLock(m, m.table[path], Resume(override));
    case JoinStart => JoinStartLock(m);
    case JoinEnd => JoinEndLock(m);
    case Load(entries) => LoadInv(m.(table := map[]), entries);
    case Worker(i, e) => WorkerLock(m, i, e);
    case _ =>
  }

  ghost function ManagerRun(m: Manager, xs: seq<Action>): (r: Option<Manager>)
    requires ManagerInv(m)
    ensures r.Some? ==> ManagerInv(r.value)
  {
    if xs == [] then Some(m)
    else
      var before, x := ManagerRun(m, xs[..|xs| - 1]), xs[|xs| - 1];
      if before.Some? && CanRun(before.value, x) then
        ManagerInvKept(before.value, x);
        Some(Act(before.value, x))
      else None
  }

  /** In every interleaving of client calls and worker threads, every agent object has gone
      through a run of its own transition system, so its laws hold at every moment; distinct
      paths name distinct agents, and every path in the table is valid. */
  lemma EveryAgentRuns(limit: nat, xs: seq<Action>, m: Manager, i: nat)
    requires ManagerRun(EmptyManager(limit), xs) == Some(m) && i < |m.agents|
    ensures exists o, es :: Origin(o) && Shape(o) && Run(o, es) == Some(m.agents[i])
    ensures Inv(m.agents[i])
    ensures forall k, l | k in m.table && l in m.table && k != l :: m.table[k] != m.table[l]
    ensures forall k | k in m.table :: Paths.ValidateAbsolute(k).None?
  {
    var o, es :| Origin(o) && Shape(o) && Run(o, es) == Some(m.agents[i]);
    RunInv(o, es);
  }

  // ---------- the lock ----------

  /** What the holder of the lock does next. */
  function HolderStep(m: Manager): Action {
    if m.holder.Closing? && m.holder.joining then JoinEnd
    else if m.holder.Closing? && m.holder.todo != [] then JoinStart
    else Release
  }

  function Remaining(m: Manager): nat {
    match m.holder
    case Free => 0
    case Closing(todo, joining, _) => 2 * |todo| + (if joining then 0 else 1)
  }

  /** In every run whoever holds the lock can go on, comes closer to giving it back with each
      step, and is not held up by the threads that run meanwhile. */
  lemma HolderGoesOn(limit: nat, xs: seq<Action>, m: Manager)
    requires ManagerRun(EmptyManager(limit), xs) == Some(m) && m.holder.Closing?
    ensures CanRun(m, HolderStep(m)) && Remaining(Act(m, HolderStep(m))) < Remaining(m)
    ensures forall i, e | CanRun(m, Worker(i, e)) :: Remaining(Act(m, Worker(i, e))) == Remaining(m)
  {
  }

  /** When the lock is free, no close is under way, so that it alone decides which client may
      act. */
  lemma FreeMeansFree(limit: nat, xs: seq<Action>, m: Manager, i: nat)
    requires ManagerRun(EmptyManager(limit), xs) == Some(m) && m.holder.Free? && i < |m.agents|
    ensures !m.agents[i].closing
  {
  }

  /** In every run, when a clear gives the lock back every agent it removes has been stopped and
      shut down, and no path is left. */
  lemma ClearStopsAll(limit: nat, xs: seq<Action>, m: Manager)
    requires ManagerRun(EmptyManager(limit), xs) == Some(m) && CanRun(m, Release) && m.holder.clearing
    ensures forall k | k in m.table :: Stopped(m.agents[m.table[k]])
    ensures Act(m, Release).table == map[] && Act(m, Release).agents == m.agents
  {
    assert LockInv(m);
  }

  /** A successful spawn adds one fresh path naming a new agent and touches nothing else; a
      refused one leaves table and agents alone. The capacity is never exceeded by a spawn. */
  lemma SpawnEffect(m: Manager, task: string, parent: string, name: string)
    requires Wellformed(m)
    ensures var (n, error) := SpawnAgent(m, task, parent, name);
            && (error.Some? ==> n == m.(counter := n.counter))
            && (error.None? ==>
                  && n.agents == m.agents + [Spawned(Strip(task))]
                  && n.table - {Paths.JoinName(parent, ChooseSegment(m, name).0).value} == m.table
                  && n.table.Values == m.table.Values + {|m.agents|}
                  && |n.table| == |m.table| + 1 <= m.limit)
  {
    var (n, error) := SpawnAgent(m, task, parent, name);
    if error.None? {
      TableAdds(m.table, Paths.JoinName(parent, ChooseSegment(m, name).0).value, |m.agents|);
    }
  }

  lemma TableAdds(table: map<string, nat>, key: string, i: nat)
    requires key !in table
    ensures table[key := i] - {key} == table
    ensures table[key := i].Values == table.Values + {i}
    ensures |table[key := i]| == |table| + 1
  {
    var added := table[key := i];
    assert added.Keys == table.Keys + {key};
    forall v | v in table.Values + {i} ensures v in added.Values {
      if v in table.Values {
        var k :| k in table && table[k] == v;
        assert k in added && added[k] == v;
      } else {
        assert key in added && added[key] == v;
      }
    }
  }

  // ---------- generated names ----------

  /** The name an action generates, if any. */
  function Generates(m: Manager, x: Action): Option<nat> {
    if && x.Spawn? && Strip(x.task) != "" && |m.table| < m.limit
       && Paths.FromString(x.parent).Ok? && Strip(x.name) == ""
    then Some(m.counter + 1)
    else None
  }

  ghost function GeneratedIn(m: Manager, xs: seq<Action>): seq<string>
    requires ManagerInv(m) && ManagerRun(m, xs).Some?
  {
    if xs == [] then []
    else
      var before := ManagerRun(m, xs[..|xs| - 1]).value;
      var n := Generates(before, xs[|xs| - 1]);
      GeneratedIn(m, xs[..|xs| - 1]) + if n.Some? then [GeneratedName(n.value)] else []
  }

  lemma {:induction false} LoadCounter(m: Manager, entries: seq<Entry>)
    ensures m.counter <= LoadEntries(m, entries).counter
  {
    if entries != [] {
      LoadCounter(m, entries[..|entries| - 1]);
    }
  }

  lemma CounterGrows(m: Manager, x: Action)
    requires Wellformed(m) && CanRun(m, x)
    ensures m.counter <= Act(m, x).counter
    ensures Generates(m, x).Some? ==> Act(m, x).counter == Generates(m, x).value > m.counter
  {
    if x.Load? {
      LoadCounter(m.(table := map[]), x.entries);
    }
  }

  /** Every generated name carries a number no larger than the counter of its moment. */
  lemma {:induction false} NamesBelowCounter(m: Manager, xs: seq<Action>, i: nat)
    requires ManagerInv(m) && ManagerRun(m, xs).Some? && i < |GeneratedIn(m, xs)|
    ensures exists n: nat :: n <= ManagerRun(m, xs).value.counter && GeneratedIn(m, xs)[i] == GeneratedName(n)
  {
    var front := xs[..|xs| - 1];
    var before := ManagerRun(m, front).value;
    CounterGrows(before, xs[|xs| - 1]);
    if i < |GeneratedIn(m, front)| {
      NamesBelowCounter(m, front, i);
    } else {
      var n := Generates(before, xs[|xs| - 1]).value;
      assert GeneratedIn(m, xs)[i] == GeneratedName(n);
    }
  }

  lemma GeneratedNameInjective(m: nat, n: nat)
    requires GeneratedName(m) == GeneratedName(n)
    ensures m == n
  {
    assert GeneratedName(m)[|PREFIX|..] == Decimal(m) && GeneratedName(n)[|PREFIX|..] == Decimal(n);
    DecimalInjective(m, n);
  }

  /** Generated names never repeat in a run, whatever is loaded or cleared in between. */
  lemma {:induction false} GeneratedNamesDistinct(m: Manager, xs: seq<Action>, i: nat, j: nat)
    requires ManagerInv(m) && ManagerRun(m, xs).Some? && i < j < |GeneratedIn(m, xs)|
    ensures GeneratedIn(m, xs)[i] != GeneratedIn(m, xs)[j]
  {
    var front := xs[..|xs| - 1];
    var before := ManagerRun(m, front).value;
    if j < |GeneratedIn(m, front)| {
      GeneratedNamesDistinct(m, front, i, j);
    } else {
      NamesBelowCounter(m, front, i);
      var n: nat :| n <= before.counter && GeneratedIn(m, front)[i] == GeneratedName(n);
      if GeneratedName(n) == GeneratedName(before.counter + 1) {
        GeneratedNameInjective(n, before.counter + 1);
      }
    }
  }

  lemma {:induction false} LoadTracks(m: Manager, entries: seq<Entry>, path: string)
    requires m.table == map[] && path in LoadEntries(m, entries).table
    ensures TrackName(LoadEntries(m, entries).counter, Paths.Name(path)) == LoadEntries(m, entries).counter
  {
    var front, entry := entries[..|entries| - 1], entries[|entries| - 1];
    if Paths.FromString(entry.path).Err? || path != entry.path {
      LoadTracks(m, front, path);
    }
  }

  /** Right after a load, the next generated name is no loaded path's last segment. */
  lemma NextNameFreshAfterLoad(m: Manager, entries: seq<Entry>, path: string)
    requires path in LoadSnapshot(m, entries).table
    ensures GeneratedName(LoadSnapshot(m, entries).counter + 1) != Paths.Name(path)
  {
    var c := LoadSnapshot(m, entries).counter;
    LoadTracks(m.(table := map[]), entries, path);
    assert GeneratedName(c + 1)[|PREFIX|..] == Decimal(c + 1);
    DecimalValue(c + 1);
  }

  // ---------- a persisted snapshot ----------

  /** A value that a snapshot holds; `Thing` is any other object, by its text. */
  datatype Field = Null | Flag(flag: bool) | Number(number: int) | Words(text: string) | Thing(text: string)

  datatype Meta = Meta(status: Field, lastError: Field, taskCount: Field)

  /** One item of a snapshot; the value of a path need not be a mapping. */
  datatype SavedAgent = SavedAgent(path: string, meta: Option<Meta>)

  /** `_safe_str`. */
  function SafeStr(f: Field): string {
    match f
    case Null => ""
    case Flag(b) => if b then "True" else "False"
    case Number(n) => if n < 0 then "-" + Decimal(-n) else Decimal(n)
    case Words(text) => text
    case Thing(text) => text
  }

  /** `_safe_int`, for a reading of numbers from text. */
  function SafeInt(read: string -> Option<int>, f: Field): nat {
    match f
    case Flag(b) => if b then 1 else 0
    case Number(n) => if n < 0 then 0 else n
    case Words(text) => if read(text).Some? && read(text).value >= 0 then read(text).value else 0
    case _ => 0
  }

  /** `_normalize_rehydrated_status`. */
  function RestoredStatus(text: string): Status {
    match Lower(Strip(text))
    case "completed" => Completed
    case "failed" => Failed
    case "not_found" => NotFound
    case _ => Shutdown
  }

  function EntryOf(read: string -> Option<int>, path: string, m: Meta): Entry {
    Entry(path, RestoredStatus(SafeStr(m.status)), SafeStr(m.lastError), SafeInt(read, m.taskCount))
  }

  /** The entries of the items whose value is a mapping. */
  function EntriesOf(read: string -> Option<int>, items: seq<SavedAgent>): seq<Entry> {
    if items == [] then []
    else
      var before, last := EntriesOf(read, items[..|items| - 1]), items[|items| - 1];
      if last.meta.None? then before else before + [EntryOf(read, last.path, last.meta.value)]
  }

  /** `sorted` by path: each item goes before the first one with a path that is not smaller. */
  function Insert(x: SavedAgent, sorted: seq<SavedAgent>): seq<SavedAgent> {
    if sorted == [] || Leq(x.path, sorted[0].path) then [x] + sorted
    else [sorted[0]] + Insert(x, sorted[1..])
  }

  function Sorted(items: seq<SavedAgent>): seq<SavedAgent> {
    if items == [] then [] else Insert(items[0], Sorted(items[1..]))
  }

  ghost predicate Ordered(items: seq<SavedAgent>) {
    forall i, j | 0 <= i < j < |items| :: Leq(items[i].path, items[j].path)
  }

  lemma InFront(x: SavedAgent, sorted: seq<SavedAgent>)
    requires Ordered(sorted) && (sorted != [] ==> Leq(x.path, sorted[0].path))
    ensures Ordered([x] + sorted) && multiset([x] + sorted) == multiset{x} + multiset(sorted)
  {
    forall j | 0 <= j < |sorted| ensures Leq(x.path, sorted[j].path) {
      if j > 0 {
        LeqTrans(x.path, sorted[0].path, sorted[j].path);
      }
    }
  }

  lemma {:induction false} InsertKeeps(x: SavedAgent, sorted: seq<SavedAgent>)
    requires Ordered(sorted)
    ensures Ordered(Insert(x, sorted)) && multiset(Insert(x, sorted)) == multiset{x} + multiset(sorted)
  {
    if sorted == [] || Leq(x.path, sorted[0].path) {
      InFront(x, sorted);
    } else {
      var (first, rest) := (sorted[0], sorted[1..]);
      assert sorted == [first] + rest;
      InsertKeeps(x, rest);
      LeqTotal(x.path, first.path);
      assert forall y | y in Insert(x, rest) :: y in multiset(Insert(x, rest));
      InFront(first, Insert(x, rest));
    }
  }

  /** The sorted items are the items, in the order of their paths. */
  lemma {:induction false} SortedExact(items: seq<SavedAgent>)
    ensures Ordered(Sorted(items)) && multiset(Sorted(items)) == multiset(items)
  {
    if items != [] {
      SortedExact(items[1..]);
      InsertKeeps(items[0], Sorted(items[1..]));
      assert items == [items[0]] + items[1..];
    }
  }

  /** One value for each path. */
  ghost predicate Dictionary(items: seq<SavedAgent>) {
    forall x, y | x in items && y in items && x.path == y.path :: x == y
  }

  lemma SmallestFirst(a: seq<SavedAgent>, b: seq<SavedAgent>)
    requires Ordered(a) && b != [] && a != [] && b[0] in a
    ensures Leq(a[0].path, b[0].path)
  {
    LeqTotal(a[0].path, a[0].path);
  }

  lemma SameFirst(a: seq<SavedAgent>, b: seq<SavedAgent>)
    requires Ordered(a) && Ordered(b) && multiset(a) == multiset(b) && Dictionary(a) && a != []
    ensures b != [] && a[0] == b[0]
  {
    assert a[0] in multiset(b) && (b != [] ==> b[0] in multiset(a));
    SmallestFirst(a, b);
    SmallestFirst(b, a);
    LeqBoth(a[0].path, b[0].path);
  }

  lemma WithoutFirst(a: seq<SavedAgent>)
    requires a != []
    ensures multiset(a[1..]) == multiset(a) - multiset{a[0]}
  {
    assert a == [a[0]] + a[1..];
  }

  lemma {:induction false} OneOrder(a: seq<SavedAgent>, b: seq<SavedAgent>)
    requires Ordered(a) && Ordered(b) && multiset(a) == multiset(b) && Dictionary(a)
    ensures a == b
  {
    if a == [] {
      assert |b| == |multiset(b)| == |multiset(a)|;
    } else {
      SameFirst(a, b);
      WithoutFirst(a);
      WithoutFirst(b);
      OneOrder(a[1..], b[1..]);
      assert a == [a[0]] + a[1..] && b == [b[0]] + b[1..];
    }
  }

  /** The state after a load does not depend on the order in which the snapshot lists its paths. */
  lemma LoadOrderIrrelevant(read: string -> Option<int>, m: Manager, items: seq<SavedAgent>, others: seq<SavedAgent>)
    requires Dictionary(items) && multiset(items) == multiset(others)
    ensures LoadSnapshot(m, EntriesOf(read, Sorted(items))) == LoadSnapshot(m, EntriesOf(read, Sorted(others)))
  {
    SortedExact(items);
    SortedExact(others);
    forall x | x in Sorted(items) ensures x in items {
      assert x in multiset(Sorted(items));
    }
    OneOrder(Sorted(items), Sorted(others));
  }

  // ---------- the manager object ----------

  class AgentManager {
    const limit: nat
    var agents: seq<Agent>
    var table: map<string, nat>
    var counter: nat
    var holder: Holder

    function View(): Manager
      reads this
    {
      Manager(agents, table, counter, limit, holder)
    }

    ghost predicate Valid()
      reads this
    {
      ManagerInv(View())
    }

    constructor (maxAgents: nat)
      ensures View() == EmptyManager(maxAgents) && Valid()
    {
      limit := if maxAgents < 1 then 1 else maxAgents;
      agents, table, counter, holder := [], map[], 0, Free;
    }

    method NextGeneratedName() returns (name: string)
      modifies this`counter
      ensures counter == old(counter) + 1 && name == GeneratedName(counter)
    {
      counter := counter + 1;
      name := PREFIX + Decimal(counter);
    }

    method TrackGeneratedName(name: string)
      modifies this`counter
      ensures counter == TrackName(old(counter), name)
    {
      if !(PREFIX <= name) {
        return;
      }
      var suffix := name[|PREFIX|..];
      if suffix == "" || !AllDigits(suffix) {
        return;
      }
      counter := if Value(suffix) > counter then Value(suffix) else counter;
    }

    method Choose(name: string) returns (segment: string)
      modifies this`counter
      ensures (segment, counter) == ChooseSegment(old(View()), name)
    {
      segment := Strip(name);
      if segment == "" {
        segment := NextGeneratedName();
      }
    }

    method Spawn(task: string, parent: string, name: string) returns (error: Option<SpawnError>)
      modifies this
      ensures (View(), error) == SpawnAgent(old(View()), task, parent, name)
      ensures old(Valid()) && old(holder).Free? ==> Valid()
    {
      if Valid() && holder.Free? {
        SpawnInv(View(), task, parent, name);
      }
      var cleaned := Strip(task);
      if cleaned == "" {
        return Some(EmptyTask);
      }
      if |table| >= limit {
        return Some(LimitReached);
      }
      var base := Paths.FromString(parent);
      if base.Err? {
        return Some(BadPath(base.error));
      }
      var segment := Choose(name);
      var key := Paths.JoinName(parent, segment);
      if key.Err? {
        return Some(BadPath(key.error));
      }
      if key.value in table {
        return Some(AlreadyExists);
      }
      table := table[key.value := |agents|];
      agents := agents + [Submit(StartThread(NewAgent()), cleaned)];
      return None;
    }

    /** Forgets the present agents and takes over the items whose paths are valid, in order. */
    method Load(read: string -> Option<int>, items: seq<SavedAgent>) returns (loaded: nat)
      modifies this
      ensures View() == LoadSnapshot(old(View()), EntriesOf(read, Sorted(items)))
      ensures loaded == |agents| - |old(agents)|
      ensures old(Valid()) && old(holder).Free? ==> Valid()
    {
      var sorted := Sorted(items);
      if Valid() && holder.Free? {
        LoadInv(View().(table := map[]), EntriesOf(read, sorted));
      }
      loaded, table := 0, map[];
      ghost var cleared := View();
      for i := 0 to |sorted|
        invariant View() == LoadEntries(cleared, EntriesOf(read, sorted[..i]))
        invariant loaded == |agents| - |old(agents)|
      {
        assert sorted[..i + 1][..i] == sorted[..i];
        if sorted[i].meta.Some? {
          var restored := LoadOne(EntryOf(read, sorted[i].path, sorted[i].meta.value));
          loaded := loaded + if restored then 1 else 0;
        }
      }
      assert sorted[..|sorted|] == sorted;
    }

    method LoadOne(entry: Entry) returns (restored: bool)
      modifies this
      ensures View() == LoadEntry(old(View()), entry)
      ensures |agents| - |old(agents)| == if restored then 1 else 0
    {
      var path := Paths.FromString(entry.path);
      restored := path.Ok?;
      if restored {
        table := table[entry.path := |agents|];
        agents := agents + [LoadedAgent(entry.status, entry.error, entry.count)];
        TrackGeneratedName(Paths.Name(entry.path));
      }
    }
  }

  lemma GeneratedNameValid(n: nat)
    ensures Paths.ValidName(GeneratedName(n)) && Strip(GeneratedName(n)) != ""
  {
    var name := GeneratedName(n);
    assert name[0] == 'a' && name[|name| - 1] == Decimal(n)[|Decimal(n)| - 1] && name[1] == 'g';
    forall i | 0 <= i < |name| ensures Paths.IsNameChar(name[i]) {
      if i >= |PREFIX| {
        assert IsDigit(Decimal(n)[i - |PREFIX|]);
      } else {
        assert name[i] == PREFIX[i];
      }
    }
    assert !IsSpace(name[0]);
    assert StripLeft(name) == name && !IsSpace(name[|name| - 1]);
  }

  lemma FreshPath(m: Manager, entries: seq<Entry>, n: nat)
    requires n == LoadSnapshot(m, entries).counter + 1
    ensures var key := Paths.JoinName(Paths.ROOT, GeneratedName(n));
            key.Ok? && key.value !in LoadSnapshot(m, entries).table
  {
    GeneratedNameValid(n);
    Paths.ParsePrint([]);
    Paths.JoinAppends(Paths.ROOT, GeneratedName(n));
    var key := Paths.JoinName(Paths.ROOT, GeneratedName(n)).value;
    if key in LoadSnapshot(m, entries).table {
      NextNameFreshAfterLoad(m, entries, key);
      Paths.NameIsLastSegment(key);
    }
  }

  /** When the chosen name is free a spawn has nothing else to refuse. */
  lemma SpawnFree(n: Manager, task: string, name: string, segment: string, counter: nat)
    requires Paths.FromString(Paths.ROOT).Ok? && ChooseSegment(n, name) == (segment, counter)
    requires var key := Paths.JoinName(Paths.ROOT, segment); key.Ok? && key.value !in n.table
    ensures SpawnAgent(n, task, Paths.ROOT, name).1 ==
            if Strip(task) == "" then Some(EmptyTask) else if |n.table| >= n.limit then Some(LimitReached) else None
  {
  }

  lemma SpawnAfterLoad(m: Manager, entries: seq<Entry>, task: string)
    ensures var n := LoadSnapshot(m, entries);
            SpawnAgent(n, task, Paths.ROOT, "").1 ==
            if Strip(task) == "" then Some(EmptyTask) else if |n.table| >= n.limit then Some(LimitReached) else None
  {
    var n := LoadSnapshot(m, entries);
    Paths.ParsePrint([]);
    FreshPath(m, entries, n.counter + 1);
    SpawnFree(n, task, "", GeneratedName(n.counter + 1), n.counter + 1);
  }

  /** A restored manager that spawns an agent without a given name never finds the name taken:
      it can only refuse a blank task or a full table. */
  method RestoreAndSpawn(maxAgents: nat, read: string -> Option<int>, items: seq<SavedAgent>, task: string)
    returns (manager: AgentManager, error: Option<SpawnError>)
    ensures fresh(manager) && manager.Valid()
    ensures var full := |LoadSnapshot(EmptyManager(maxAgents), EntriesOf(read, Sorted(items))).table| >= manager.limit;
            error == if Strip(task) == "" then Some(EmptyTask) else if full then Some(LimitReached) else None
  {
    manager := new AgentManager(maxAgents);
    var _ := manager.Load(read, items);
    LoadInv(EmptyManager(maxAgents), EntriesOf(read, Sorted(items)));
    SpawnAfterLoad(EmptyManager(maxAgents), EntriesOf(read, Sorted(items)), task);
    error := manager.Spawn(task, Paths.ROOT, "");
  }
}
