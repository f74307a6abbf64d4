/** Saving a manager's agents and loading them again. */
module Snapshots {
  import opened Text
  import opened MultiAgent
  import opened MultiAgentRuns
  import opened MultiAgentManager
  import Paths = AgentPath

  /** The texts of the status literals. */
  function StatusText(s: Status): string {
    match s
    case PendingInit => "pending_init"
    case Running => "running"
    case WaitingInput => "waiting_input"
    case Completed => "completed"
    case Failed => "failed"
    case TimedOut => "timed_out"
    case Shutdown => "shutdown"
    case NotFound => "not_found"
  }

  /** `to_summary`, as far as loading reads it. */
  function Summary(a: Agent): Meta {
    Meta(Words(StatusText(a.status)), Words(a.lastError), Number(a.taskCount))
  }

  /** The items are the manager's paths, each with the summary of its agent. */
  ghost predicate Saved(m: Manager, items: seq<SavedAgent>)
    requires Wellformed(m)
  {
    && (forall x | x in items :: x.path in m.table && x.meta == Some(Summary(m.agents[m.table[x.path]])))
    && (forall path | path in m.table :: exists x :: x in items && x.path == path)
  }

  /** What a load makes of an agent: a final status other than a timeout stays, any other is a
      shutdown; error and count stay; input, output and threads are gone. */
  predicate Rehydrates(a: Agent, b: Agent) {
    && b.status == (if a.status in {Completed, Failed, NotFound} then a.status else Shutdown)
    && b.lastError == a.lastError && b.taskCount == a.taskCount && b.lastInput == "" == b.lastOutput
    && b.threads == [] && b.thread.None? && b.queues == [[]] && b.queue == b.generation == 0 && !b.closing
    && (b.stop <==> b.status == Shutdown)
  }

  lemma StripWord(s: string)
    requires s != "" && !IsSpace(s[0]) && !IsSpace(s[|s| - 1])
    ensures Strip(s) == s
  {
  }

  /** The statuses that a loaded text stands for, exactly. */
  lemma RestoredExact(text: string)
    ensures RestoredStatus(text) in {Completed, Failed, NotFound, Shutdown}
    ensures RestoredStatus(text) == Completed <==> Lower(Strip(text)) == "completed"
    ensures RestoredStatus(text) == Failed <==> Lower(Strip(text)) == "failed"
    ensures RestoredStatus(text) == NotFound <==> Lower(Strip(text)) == "not_found"
  {
  }

  lemma StatusRoundTrip(s: Status)
    ensures RestoredStatus(StatusText(s)) == if s in {Completed, Failed, NotFound} then s else Shutdown
  {
    var text := StatusText(s);
    StripWord(text);
    LowerWord(text);
    RestoredExact(text);
  }

  lemma LowerWord(s: string)
    requires forall i | 0 <= i < |s| :: 'a' <= s[i] <= 'z' || s[i] == '_'
    ensures Lower(s) == s
  {
  }

  // ---------- loading ----------

  /** The entry of a path decides its agent, when all entries of the path are the same. */
  lemma {:induction false} LoadedAgents(m: Manager, entries: seq<Entry>, path: string, entry: Entry)
    requires m.table == map[] && forall e | e in entries && e.path == path :: e == entry
    ensures var n := LoadEntries(m, entries);
            && |m.agents| <= |n.agents|
            && (path in n.table <==> Paths.FromString(path).Ok? && exists e :: e in entries && e.path == path)
            && (path in n.table ==>
                  n.table[path] < |n.agents|
                  && n.agents[n.table[path]] == LoadedAgent(entry.status, entry.error, entry.count))
  {
    if entries != [] {
      var (front, last) := (entries[..|entries| - 1], entries[|entries| - 1]);
      Snoc(entries);
      LoadedAgents(m, front, path, entry);
      assert last in entries;
      assert forall e :: e in entries <==> e in front || e == last;
    }
  }

  lemma {:induction false} EntriesExact(read: string -> Option<int>, items: seq<SavedAgent>, e: Entry)
    ensures e in EntriesOf(read, items)
            <==> exists x :: x in items && x.meta.Some? && e == EntryOf(read, x.path, x.meta.value)
  {
    if items != [] {
      var (front, last) := (items[..|items| - 1], items[|items| - 1]);
      Snoc(items);
      EntriesExact(read, front, e);
      assert forall x :: x in items <==> x in front || x == last;
    }
  }

  lemma SortedSame(items: seq<SavedAgent>, x: SavedAgent)
    ensures x in Sorted(items) <==> x in items
  {
    SortedExact(items);
    assert x in Sorted(items) <==> x in multiset(Sorted(items));
  }

  /** For every manager and every reading of numbers: what is saved and loaded again has the same
      paths, and under each path the rehydrated agent. */
  lemma SaveAndLoad(read: string -> Option<int>, m: Manager, items: seq<SavedAgent>, other: Manager, path: string)
    requires ManagerInv(m) && Saved(m, items)
    ensures var n := LoadSnapshot(other, EntriesOf(read, Sorted(items)));
            && (path in n.table <==> path in m.table)
            && (path in n.table ==>
                  n.table[path] < |n.agents| && Rehydrates(m.agents[m.table[path]], n.agents[n.table[path]]))
  {
    var entries := EntriesOf(read, Sorted(items));
    if path in m.table {
      var a := m.agents[m.table[path]];
      var entry := EntryOf(read, path, Summary(a));
      EntrySaved(read, m, items, path);
      LoadedAgents(other.(table := map[]), entries, path, entry);
      EntryRehydrates(read, path, a);
    } else {
      NotSaved(read, m, items, path);
      LoadedAgents(other.(table := map[]), entries, path, Entry(path, Shutdown, "", 0));
    }
  }

  lemma EntrySaved(read: string -> Option<int>, m: Manager, items: seq<SavedAgent>, path: string)
    requires Wellformed(m) && Saved(m, items) && path in m.table
    ensures var entries := EntriesOf(read, Sorted(items));
            var entry := EntryOf(read, path, Summary(m.agents[m.table[path]]));
            entry in entries && forall e | e in entries && e.path == path :: e == entry
  {
    var entries := EntriesOf(read, Sorted(items));
    var entry := EntryOf(read, path, Summary(m.agents[m.table[path]]));
    var x :| x in items && x.path == path;
    SortedSame(items, x);
    EntriesExact(read, Sorted(items), entry);
    forall e | e in entries && e.path == path ensures e == entry {
      EntriesExact(read, Sorted(items), e);
      var y :| y in Sorted(items) && y.meta.Some? && e == EntryOf(read, y.path, y.meta.value);
      SortedSame(items, y);
    }
  }

  lemma EntryRehydrates(read: string -> Option<int>, path: string, a: Agent)
    ensures var entry := EntryOf(read, path, Summary(a));
            Rehydrates(a, LoadedAgent(entry.status, entry.error, entry.count))
  {
    StatusRoundTrip(a.status);
  }

  lemma NotSaved(read: string -> Option<int>, m: Manager, items: seq<SavedAgent>, path: string)
    requires Wellformed(m) && Saved(m, items) && path !in m.table
    ensures forall e | e in EntriesOf(read, Sorted(items)) :: e.path != path
  {
    forall e | e in EntriesOf(read, Sorted(items)) ensures e.path != path {
      EntriesExact(read, Sorted(items), e);
      var y :| y in Sorted(items) && y.meta.Some? && e == EntryOf(read, y.path, y.meta.value);
      SortedSame(items, y);
    }
  }
}
