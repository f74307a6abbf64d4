/** What one action of the manager does to its agents and its table, and when a spawn succeeds. */
module ManagerLaws {
  import opened Text
  import opened MultiAgent
  import opened MultiAgentRuns
  import opened MultiAgentManager
  import Paths = AgentPath

  // ---------- actions ----------

  /** The agent that an action concerns, and by which event; some concern none. */
  datatype Concern = NoOne | One(i: nat, e: Event)

  function Concerned(m: Manager, x: Action): Concern
    requires Wellformed(m) && CanRun(m, x)
  {
    match x
    case SendTo(path, text) => One(m.table[path], Send(Strip(text)))
    case ResumeAt(path, override) => One(m.table[path], Resume(override))
    case JoinStart => One(m.holder.todo[0], Close)
    case JoinEnd => One(m.holder.todo[0], CloseDone)
    case Worker(i, e) => One(i, e)
    case _ => NoOne
  }

  /** No action takes an agent object away; one that concerns an agent is that agent's event and
      nothing to any other, and the rest touch no agent that there is. */
  lemma ActAgents(m: Manager, x: Action, i: nat)
    requires Wellformed(m) && CanRun(m, x) && i < |m.agents|
    ensures i < |Act(m, x).agents|
    ensures if Concerned(m, x).One? && Concerned(m, x).i == i then
              Enabled(m.agents[i], Concerned(m, x).e) && Act(m, x).agents[i] == Next(m.agents[i], Concerned(m, x).e)
            else Act(m, x).agents[i] == m.agents[i]
  {
    match x
    case Load(entries) => LoadKeeps(m.(table := map[]), entries, i);
    case Spawn(task, parent, name) => SpawnEffect(m, task, parent, name);
    case _ =>
  }

  lemma {:induction false} LoadKeeps(m: Manager, entries: seq<Entry>, i: nat)
    requires i < |m.agents|
    ensures i < |LoadEntries(m, entries).agents| && LoadEntries(m, entries).agents[i] == m.agents[i]
  {
    if entries != [] {
      LoadKeeps(m, entries[..|entries| - 1], i);
    }
  }

  /** The table changes only by a successful spawn, a load, and the end of a clear, which empties it;
      closing agents or shutting them down leaves every path in place. */
  lemma ActTable(m: Manager, x: Action)
    requires ManagerInv(m) && CanRun(m, x)
    ensures var n := Act(m, x);
            match x
            case Spawn(task, parent, name) => m.table.Keys <= n.table.Keys && |n.table| <= |m.table| + 1
            case Load(_) => forall path | path in n.table :: n.table[path] >= |m.agents|
            case Release => n.table == if m.holder.clearing then map[] else m.table
            case _ => n.table == m.table
    ensures Act(m, x).limit == m.limit && (x.Release? ==> Act(m, x).holder.Free?)
  {
    match x
    case Load(entries) => LoadTable(m.(table := map[]), entries, |m.agents|);
    case Spawn(task, parent, name) => SpawnEffect(m, task, parent, name);
    case _ =>
  }

  lemma {:induction false} LoadTable(m: Manager, entries: seq<Entry>, n: nat)
    requires m.table == map[] && n <= |m.agents|
    ensures n <= |LoadEntries(m, entries).agents| && LoadEntries(m, entries).limit == m.limit
    ensures forall path | path in LoadEntries(m, entries).table :: LoadEntries(m, entries).table[path] >= n
  {
    if entries != [] {
      LoadTable(m, entries[..|entries| - 1], n);
    }
  }

  /** A manager starts without agents, paths and counted names, and with room for at least one. */
  lemma EmptyExact(limit: nat)
    ensures var m := EmptyManager(limit);
            && m.agents == [] && m.table == map[] && m.counter == 0 && m.holder.Free?
            && m.limit >= 1 && m.limit >= limit && (limit >= 1 ==> m.limit == limit) && (limit == 0 ==> m.limit == 1)
  {
  }

  // ---------- spawning ----------

  /** The name that a new agent gets: the given one, stripped, or the next generated one. */
  function NameFor(m: Manager, name: string): string {
    if Strip(name) == "" then "agent_" + Decimal(m.counter + 1) else Strip(name)
  }

  /** A spawn succeeds exactly with a task, room, a valid parent, a valid name and a free path; and
      a name is counted as generated exactly when none was given and the first three are met. */
  lemma SpawnExact(m: Manager, task: string, parent: string, name: string)
    requires Wellformed(m)
    ensures var (n, error) := SpawnAgent(m, task, parent, name);
            var begun := Strip(task) != "" && |m.table| < m.limit && Paths.FromString(parent).Ok?;
            var path := Paths.JoinName(parent, NameFor(m, name));
            && (error.None? <==> begun && path.Ok? && path.value !in m.table)
            && (error == Some(EmptyTask) <==> Strip(task) == "")
            && (error == Some(LimitReached) <==> Strip(task) != "" && |m.table| >= m.limit)
            && (error == Some(AlreadyExists) <==> begun && path.Ok? && path.value in m.table)
            && (error.None? ==> path.value in n.table && n.table[path.value] == |m.agents|)
            && n.counter == m.counter + if begun && Strip(name) == "" then 1 else 0
  {
  }

  // ---------- values of a snapshot ----------

  /** A number is written with its sign and read back from its text. */
  lemma NumberText(n: int)
    ensures var s := SafeStr(Number(n));
            if n < 0 then s != "" && s[0] == '-' && AllDigits(s[1..]) && Value(s[1..]) == -n
            else s != "" && AllDigits(s) && Value(s) == n
  {
    if n < 0 {
      DecimalValue(-n);
      assert ("-" + Decimal(-n))[1..] == Decimal(-n);
    } else {
      DecimalValue(n);
    }
  }

  /** The words for the others. */
  lemma FieldText(text: string)
    ensures SafeStr(Null) == "" && SafeStr(Flag(true)) == "True" && SafeStr(Flag(false)) == "False"
    ensures SafeStr(Words(text)) == text == SafeStr(Thing(text))
  {
  }

  /** A count is never negative, and is the number wherever one is given or can be read. */
  lemma CountExact(read: string -> Option<int>, f: Field)
    ensures var n := SafeInt(read, f);
            && (f.Number? && f.number >= 0 ==> n == f.number)
            && (f.Words? && read(f.text).Some? && read(f.text).value >= 0 ==> n == read(f.text).value)
            && (f.Flag? ==> n == if f.flag then 1 else 0)
            && (n != 0 ==> f.Number? || f.Words? || f.Flag?)
            && (f.Number? && f.number < 0 ==> n == 0) && (f.Words? && read(f.text).None? ==> n == 0)
            && (f.Words? && read(f.text).Some? && read(f.text).value < 0 ==> n == 0)
  {
  }
}
