/** The undo log over workspace files: numbered backups, recorded changes and their undo. */
module Rollback {
  import opened Text

  datatype Kind = Created | Modified

  datatype Entry = Entry(index: nat, path: string, backup: Option<string>, action: Kind)

  /** Workspace files, the backup directory, the entries in memory and the log on disk. */
  datatype Store = Store(
    files: map<string, string>,
    backups: map<string, string>,
    entries: seq<Entry>,
    log: seq<Entry>)

  datatype UndoError = NoHistory | MissingBackup

  // ---------- backup names ----------

  /** `f"{n:03d}"`. */
  function Pad3(n: nat): string {
    var d := Decimal(n);
    if |d| == 1 then "0" + ("0" + d) else if |d| == 2 then "0" + d else d
  }

  function SafeName(path: string): string {
    seq(|path|, i requires 0 <= i < |path| => if path[i] == '\\' || path[i] == '/' then '_' else path[i])
  }

  function BackupName(n: nat, path: string): string {
    Pad3(n) + "_" + SafeName(path)
  }

  lemma Pad3Value(n: nat)
    ensures AllDigits(Pad3(n)) && Pad3(n) != "" && Value(Pad3(n)) == n
  {
    var d := Decimal(n);
    DecimalValue(n);
    LeadingZero(d);
    LeadingZero("0" + d);
  }

  /** Numbers are padded to three digits and never cut. */
  lemma Pad3Width(n: nat)
    ensures |Pad3(n)| >= 3 && (n >= 100 ==> Pad3(n) == Decimal(n)) && (n < 1000 ==> |Pad3(n)| == 3)
  {
    assert n >= 10 ==> Decimal(n) == Decimal(n / 10) + [Digit(n % 10)];
    assert n >= 100 ==> Decimal(n / 10) == Decimal(n / 100) + [Digit(n / 10 % 10)];
    assert n < 1000 ==> n / 10 / 10 < 10;
  }

  /** The number before the first underscore can be read back, so names with different
      numbers differ, even when the flattened paths coincide. */
  lemma BackupNumber(m: nat, p: string, n: nat, q: string)
    requires BackupName(m, p) == BackupName(n, q)
    ensures m == n
  {
    Pad3Value(m);
    Pad3Value(n);
    var a, b, name := Pad3(m), Pad3(n), BackupName(m, p);
    assert name[|a|] == '_' && name[|b|] == '_';
    assert |a| == |b|;
    assert a == name[..|a|] && b == name[..|a|];
  }

  /** A backup name is a plain file name and never the log's. */
  lemma BackupNamePlain(n: nat, path: string)
    ensures '/' !in BackupName(n, path) && '\\' !in BackupName(n, path)
    ensures BackupName(n, path) != "rollback_log.json"
  {
    Pad3Value(n);
    var name := BackupName(n, path);
    forall i | 0 <= i < |name| ensures name[i] != '/' && name[i] != '\\' {
      assert i < |Pad3(n)| ==> IsDigit(name[i]);
    }
    assert IsDigit(name[0]);
  }

  /** Behind the number a backup name shows its path, with underscores for the separators. */
  lemma BackupNameTells(n: nat, path: string, i: nat)
    requires i < |path|
    ensures var name := BackupName(n, path);
            && |name| == |Pad3(n)| + 1 + |path| && name[|Pad3(n)|] == '_'
            && name[|Pad3(n)| + 1 + i] == if path[i] in {'/', '\\'} then '_' else path[i]
  {
  }

  // ---------- operations ----------

  function Lookup(files: map<string, string>, path: string): Option<string> {
    if path in files then Some(files[path]) else None
  }

  function Put(files: map<string, string>, path: string, content: Option<string>): map<string, string> {
    if content.Some? then files[path := content.value] else files - {path}
  }

  /** `backup_file` for an existing file. */
  function Backup(s: Store, path: string): Store
    requires path in s.files
  {
    s.(backups := s.backups[BackupName(|s.entries| + 1, path) := s.files[path]])
  }

  /** `_append_entry`, which also rewrites the log. */
  function Append(s: Store, path: string, backup: Option<string>, action: Kind): Store {
    var entries := s.entries + [Entry(|s.entries| + 1, path, backup, action)];
    s.(entries := entries, log := entries)
  }

  /** Before a tool runs: back up its target if it exists. */
  function PreAction(s: Store, target: Option<string>): (Store, Option<string>) {
    if target.Some? && target.value in s.files then
      (Backup(s, target.value), Some(BackupName(|s.entries| + 1, target.value)))
    else (s, None)
  }

  /** After a tool ran: record a change of its target if the result was a success. */
  function PostAction(s: Store, target: Option<string>, backup: Option<string>, success: bool): Store {
    if !success || target.None? then s
    else if backup.Some? then Append(s, target.value, backup, Modified)
    else if target.value in s.files then Append(s, target.value, None, Created)
    else s
  }

  /** A whole tool call: whatever it does to the workspace between the two hooks. A call
      that raises never reaches the second hook. */
  function ToolCall(s: Store, target: Option<string>, after: map<string, string>, raised: bool, success: bool): Store {
    var (t, backup) := PreAction(s, target);
    var ran := t.(files := after);
    if raised then ran else PostAction(ran, target, backup, success)
  }

  /** The file effect of undoing one entry; `None` when its backup cannot be read. */
  function Reverted(s: Store, e: Entry): Option<map<string, string>> {
    match e.action
    case Created => Some(s.files - {e.path})
    case Modified =>
      if e.backup.Some? && e.backup.value in s.backups then Some(s.files[e.path := s.backups[e.backup.value]]) else None
  }

  /** `undo_last`. On a failure the entry is gone from memory but still in the log. */
  function UndoLast(s: Store): (Store, Option<UndoError>) {
    if s.entries == [] then (s, Some(NoHistory))
    else
      var rest := s.entries[..|s.entries| - 1];
      var files := Reverted(s, s.entries[|s.entries| - 1]);
      if files.None? then (s.(entries := rest), Some(MissingBackup))
      else (s.(files := files.value, entries := rest, log := rest), None)
  }

  /** `undo_all`: undo until the log is empty or an undo fails. */
  function UndoAll(s: Store): (Store, Option<UndoError>)
    decreases |s.entries|
  {
    if s.entries == [] then (s, None)
    else
      var (t, error) := UndoLast(s);
      if error.Some? then (t, error) else UndoAll(t)
  }

  // ---------- runs ----------

  datatype Op =
    | Call(key: string, target: Option<string>, after: map<string, string>, raised: bool, success: bool)
    | Edit(after: map<string, string>)   // any outside change of workspace files
    | Undo
    | Reopen                             // a new manager on the same directory

  function Step(s: Store, op: Op): Store {
    match op
    case Call(_, target, after, raised, success) => ToolCall(s, target, after, raised, success)
    case Edit(after) => s.(files := after)
    case Undo => UndoLast(s).0
    case Reopen => s.(entries := s.log)
  }

  function Start(files: map<string, string>, backups: map<string, string>): Store {
    Store(files, backups, [], [])
  }

  function Run(s: Store, ops: seq<Op>): Store {
    if ops == [] then s else Step(Run(s, ops[..|ops| - 1]), ops[|ops| - 1])
  }

  // ---------- which calls are recorded ----------

  /** A call changes its target for the log when it did not raise, succeeded, and the target
      existed before it or exists after it. */
  predicate Changes(files: map<string, string>, op: Op) {
    && op.Call? && !op.raised && op.success && op.target.Some?
    && (op.target.value in files || op.target.value in op.after)
  }

  /** For every state: such a call adds one entry, for its target, a modification exactly when the
      target existed, with a backup of its content; no other operation adds one, except that
      reopening takes up what the log holds. */
  lemma RecordsExactly(s: Store, op: Op)
    ensures var (t, n) := (Step(s, op), |s.entries|);
            if Changes(s.files, op) then
              && |t.entries| == n + 1 && t.entries[..n] == s.entries && t.log == t.entries
              && var (e, path) := (t.entries[n], op.target.value);
                 && e.index == n + 1 && e.path == path
                 && (if path in s.files then
                       e.action.Modified? && e.backup.Some? && e.backup.value in t.backups
                       && t.backups[e.backup.value] == s.files[path]
                     else e.action.Created? && e.backup.None?)
            else if op.Reopen? then t.entries == t.log == s.log
            else if op.Undo? then t.entries == if n == 0 then [] else s.entries[..n - 1]
            else t.entries == s.entries && t.log == s.log
  {
  }

  // ---------- what the log stands for ----------

  /** A change by its path and what the path held before, and the files with all changes that can
      still be undone: no names, no backups, no log. */
  datatype Past = Past(path: string, before: Option<string>)

  datatype Memory = Memory(files: map<string, string>, past: seq<Past>)

  function Remember(m: Memory, op: Op): Memory {
    match op
    case Call(_, target, after, _, _) =>
      Memory(after,
             if Changes(m.files, op) then m.past + [Past(target.value, Lookup(m.files, target.value))] else m.past)
    case Edit(after) => m.(files := after)
    case Undo =>
      if m.past == [] then m
      else
        var (last, rest) := (m.past[|m.past| - 1], m.past[..|m.past| - 1]);
        Memory(Put(m.files, last.path, last.before), rest)
    case Reopen => m
  }

  function Remembered(m: Memory, ops: seq<Op>): Memory {
    if ops == [] then m else Remember(Remembered(m, ops[..|ops| - 1]), ops[|ops| - 1])
  }

  predicate Faithful(s: Store, i: nat, past: Past)
    requires i < |s.entries|
  {
    var e := s.entries[i];
    && e.index == i + 1 && e.path == past.path
    && match e.action
       case Created => e.backup.None? && past.before.None?
       case Modified =>
         && e.backup == Some(BackupName(i + 1, e.path))
         && e.backup.value in s.backups
         && past.before == Some(s.backups[e.backup.value])
  }

  /** The store stands for the memory: the same files, an entry for each change, in order, from
      which the change can be undone, and the same entries in the log. */
  predicate StandsFor(s: Store, m: Memory) {
    && s.files == m.files
    && |m.past| == |s.entries|
    && s.log == s.entries
    && forall i | 0 <= i < |m.past| :: Faithful(s, i, m.past[i])
  }

  /** A new backup overwrites no backup that a remaining entry needs. */
  lemma BackupKeeps(s: Store, path: string, m: Memory)
    requires StandsFor(s, m) && path in s.files
    ensures StandsFor(Backup(s, path), m)
  {
    var t := Backup(s, path);
    forall i | 0 <= i < |m.past| ensures Faithful(t, i, m.past[i]) {
      assert Faithful(s, i, m.past[i]);
      if BackupName(i + 1, s.entries[i].path) == BackupName(|s.entries| + 1, path) {
        BackupNumber(i + 1, s.entries[i].path, |s.entries| + 1, path);
      }
    }
  }

  lemma AppendKeeps(s: Store, path: string, backup: Option<string>, action: Kind, m: Memory, before: Option<string>)
    requires StandsFor(s, m)
    requires Faithful(Append(s, path, backup, action), |s.entries|, Past(path, before))
    ensures StandsFor(Append(s, path, backup, action), m.(past := m.past + [Past(path, before)]))
  {
    var t := Append(s, path, backup, action);
    forall i | 0 <= i < |s.entries| + 1 ensures Faithful(t, i, (m.past + [Past(path, before)])[i]) {
      if i < |s.entries| {
        assert Faithful(s, i, m.past[i]);
      }
    }
  }

  lemma FilesKeep(s: Store, m: Memory, files: map<string, string>)
    requires StandsFor(s, m)
    ensures StandsFor(s.(files := files), m.(files := files))
  {
    forall i | 0 <= i < |m.past| ensures Faithful(s.(files := files), i, m.past[i]) {
      assert Faithful(s, i, m.past[i]);
    }
  }

  lemma CallKeeps(s: Store, op: Op, m: Memory)
    requires StandsFor(s, m) && op.Call?
    ensures StandsFor(Step(s, op), Remember(m, op))
  {
    var (t, backup) := PreAction(s, op.target);
    if backup.Some? {
      BackupKeeps(s, op.target.value, m);
    }
    FilesKeep(t, m, op.after);
    if Changes(s.files, op) {
      var path := op.target.value;
      AppendKeeps(t.(files := op.after), path, backup, if backup.Some? then Modified else Created,
                  m.(files := op.after), Lookup(s.files, path));
    }
  }

  lemma UndoKeeps(s: Store, m: Memory)
    requires StandsFor(s, m)
    ensures StandsFor(UndoLast(s).0, Remember(m, Undo))
    ensures UndoLast(s).1 == if m.past == [] then Some(NoHistory) else None
  {
    if m.past != [] {
      var n := |m.past| - 1;
      assert Faithful(s, n, m.past[n]);
      forall i | 0 <= i < n ensures Faithful(UndoLast(s).0, i, m.past[..n][i]) {
        assert Faithful(s, i, m.past[i]);
      }
    }
  }

  lemma StepKeeps(s: Store, op: Op, m: Memory)
    requires StandsFor(s, m)
    ensures StandsFor(Step(s, op), Remember(m, op))
  {
    match op
    case Call(_, _, _, _, _) => CallKeeps(s, op, m);
    case Edit(after) => FilesKeep(s, m, after);
    case Undo => UndoKeeps(s, m);
    case Reopen => FilesKeep(s, m, s.files);
  }

  /** In every run of tool calls, outside edits, undos and reopenings the store stands for what is
      to be remembered of the operations. */
  lemma {:induction false} RunInv(files: map<string, string>, backups: map<string, string>, ops: seq<Op>)
    ensures StandsFor(Run(Start(files, backups), ops), Remembered(Memory(files, []), ops))
  {
    if ops != [] {
      var front := ops[..|ops| - 1];
      RunInv(files, backups, front);
      StepKeeps(Run(Start(files, backups), front), ops[|ops| - 1], Remembered(Memory(files, []), front));
    }
  }

  // ---------- what undoing restores ----------

  /** What a path held before its earliest change in the past, if there is one. */
  function Original(past: seq<Past>, path: string): Option<Past> {
    if past == [] then None
    else if past[0].path == path then Some(past[0])
    else Original(past[1..], path)
  }

  /** What a path holds once every change of the past is undone. */
  function Restored(m: Memory, path: string): Option<string> {
    match Original(m.past, path) case Some(first) => first.before case None => Lookup(m.files, path)
  }

  lemma {:induction false} OriginalSnoc(past: seq<Past>, last: Past, path: string)
    ensures Original(past + [last], path)
            == if Original(past, path).Some? then Original(past, path)
               else if last.path == path then Some(last) else None
  {
    if past == [] {
      assert [last][1..] == [];
    } else {
      RestOfConcat(past, [last]);
      OriginalSnoc(past[1..], last, path);
    }
  }

  lemma LookupPut(files: map<string, string>, path: string, content: Option<string>, other: string)
    ensures Lookup(Put(files, path, content), other) == if other == path then content else Lookup(files, other)
  {
  }

  lemma UndoOne(s: Store, m: Memory)
    requires StandsFor(s, m) && m.past != []
    ensures UndoAll(s) == UndoAll(UndoLast(s).0) && UndoLast(s).0.backups == s.backups
    ensures |UndoLast(s).0.entries| < |s.entries|
  {
    UndoKeeps(s, m);
  }

  lemma {:induction false} UndoAllInv(s: Store, m: Memory, path: string)
    requires StandsFor(s, m)
    ensures var (t, error) := UndoAll(s);
            && error.None? && t.entries == t.log == [] && t.backups == s.backups
            && Lookup(t.files, path) == Restored(m, path)
    decreases |s.entries|
  {
    if m.past != [] {
      var (rest, last) := (m.past[..|m.past| - 1], m.past[|m.past| - 1]);
      UndoKeeps(s, m);
      UndoOne(s, m);
      UndoAllInv(UndoLast(s).0, Remember(m, Undo), path);
      LookupPut(m.files, last.path, last.before, path);
      Snoc(m.past);
      OriginalSnoc(rest, last, path);
    }
  }

  /** After any run of tool calls, undos, outside edits and reopenings, `undo_all` succeeds; every
      changed path gets what it held just before the earliest change that can still be undone, or
      is absent if it was absent then, and every other path is untouched. */
  lemma UndoAllRestores(files: map<string, string>, backups: map<string, string>, ops: seq<Op>, path: string)
    ensures var (t, error) := UndoAll(Run(Start(files, backups), ops));
            var m := Remembered(Memory(files, []), ops);
            && error.None? && t.entries == t.log == []
            && Lookup(t.files, path) == Restored(m, path)
  {
    RunInv(files, backups, ops);
    UndoAllInv(Run(Start(files, backups), ops), Remembered(Memory(files, []), ops), path);
  }

  /** A single undo after any run puts the latest change's path back, changes no other path and
      fails only when nothing is left to undo. */
  lemma UndoLastRestores(files: map<string, string>, backups: map<string, string>, ops: seq<Op>)
    ensures var (t, error) := UndoLast(Run(Start(files, backups), ops));
            var m := Remembered(Memory(files, []), ops);
            && error == (if m.past == [] then Some(NoHistory) else None)
            && t.files == (if m.past == [] then m.files
                           else Put(m.files, m.past[|m.past| - 1].path, m.past[|m.past| - 1].before))
  {
    RunInv(files, backups, ops);
    UndoKeeps(Run(Start(files, backups), ops), Remembered(Memory(files, []), ops));
  }

  /** Undone right away, a recorded call leaves its target as it was before, or absent, and the
      rest as the call left it; the log is the one before the call. */
  lemma CallUndone(files: map<string, string>, backups: map<string, string>, ops: seq<Op>, op: Op)
    requires Changes(Run(Start(files, backups), ops).files, op)
    ensures var s := Run(Start(files, backups), ops);
            var (t, error) := UndoLast(Step(s, op));
            && error.None? && t.entries == t.log == s.entries
            && t.files == Put(op.after, op.target.value, Lookup(s.files, op.target.value))
  {
    var (s, m) := (Run(Start(files, backups), ops), Remembered(Memory(files, []), ops));
    RunInv(files, backups, ops);
    StepKeeps(s, op, m);
    UndoKeeps(Step(s, op), Remember(m, op));
    RecordsExactly(s, op);
  }

  // ---------- the manager object ----------

  class RollbackManager {
    var files: map<string, string>
    var backups: map<string, string>
    var entries: seq<Entry>
    var log: seq<Entry>

    function View(): Store
      reads this
    {
      Store(files, backups, entries, log)
    }

    /** Opening a session directory: the entries are those of the log found there. */
    constructor (files: map<string, string>, backups: map<string, string>, log: seq<Entry>)
      ensures View() == Store(files, backups, log, log)
    {
      this.files, this.backups, this.entries, this.log := files, backups, log, log;
    }

    /** `backup_file`: refused for a missing file. */
    method BackupFile(path: string) returns (name: Option<string>)
      modifies this
      ensures name.None? <==> path !in old(files)
      ensures name.None? ==> View() == old(View())
      ensures name.Some? ==> name.value == BackupName(|old(entries)| + 1, path) && View() == Backup(old(View()), path)
    {
      if path !in files {
        return None;
      }
      var backup := BackupName(|entries| + 1, path);
      backups := backups[backup := files[path]];
      return Some(backup);
    }

    method AppendEntry(path: string, backup: Option<string>, action: Kind)
      modifies this
      ensures View() == Append(old(View()), path, backup, action)
    {
      entries := entries + [Entry(|entries| + 1, path, backup, action)];
      log := entries;
    }

    method UndoLastChange() returns (error: Option<UndoError>)
      modifies this
      ensures (View(), error) == UndoLast(old(View()))
    {
      if entries == [] {
        return Some(NoHistory);
      }
      var entry := entries[|entries| - 1];
      entries := entries[..|entries| - 1];
      match entry.action {
        case Created =>
          if entry.path in files {
            files := files - {entry.path};
          } else {
            assert files - {entry.path} == files;
          }
        case Modified =>
          if entry.backup.None? || entry.backup.value !in backups {
            return Some(MissingBackup);
          }
          files := files[entry.path := backups[entry.backup.value]];
      }
      log := entries;
      return None;
    }

    method UndoEverything() returns (undone: seq<Entry>, error: Option<UndoError>)
      modifies this
      ensures (View(), error) == UndoAll(old(View()))
      ensures error.None? ==> |undone| == |old(entries)|
      ensures forall i | 0 <= i < |undone| :: i < |old(entries)| && undone[i] == old(entries)[|old(entries)| - 1 - i]
    {
      undone := [];
      while entries != []
        invariant UndoAll(View()) == UndoAll(old(View()))
        invariant |undone| + |entries| == |old(entries)| && entries == old(entries)[..|entries|]
        invariant forall i | 0 <= i < |undone| :: undone[i] == old(entries)[|old(entries)| - 1 - i]
        decreases |entries|
      {
        var entry := entries[|entries| - 1];
        error := UndoLastChange();
        if error.Some? {
          return;
        }
        undone := undone + [entry];
      }
      error := None;
    }
  }

  datatype Change = Change(path: string, backup: Option<string>)

  /** The hooks around a tool execution, with the changes waiting for its result. */
  class SafetyHooks {
    const rollback: RollbackManager
    var pending: map<string, seq<Change>>

    constructor (rollback: RollbackManager)
      ensures this.rollback == rollback && pending == map[]
    {
      this.rollback, this.pending := rollback, map[];
    }

    /** `pre_action`; `_modification_targets` yields at most one path. */
    method Before(key: string, target: Option<string>)
      modifies this, rollback
      ensures rollback.View() == PreAction(old(rollback.View()), target).0
      ensures pending == if target.None? then old(pending)
                         else old(pending)[key := [Change(target.value, PreAction(old(rollback.View()), target).1)]]
    {
      if target.Some? {
        var backup := None;
        if target.value in rollback.files {
          backup := rollback.BackupFile(target.value);
        }
        pending := pending[key := [Change(target.value, backup)]];
      }
    }

    /** `post_action`: the pending changes of this call are recorded only on success. */
    method After(key: string, success: bool)
      requires key in pending ==> |pending[key]| == 1
      modifies this, rollback
      ensures pending == old(pending) - {key}
      ensures rollback.View() ==
              if key in old(pending) then
                PostAction(old(rollback.View()), Some(old(pending[key][0].path)), old(pending[key][0].backup), success)
              else old(rollback.View())
    {
      var changes := if key in pending then pending[key] else [];
      pending := pending - {key};
      if !success || changes == [] {
        return;
      }
      var change := changes[0];
      if change.backup.Some? {
        rollback.AppendEntry(change.path, change.backup, Modified);
      } else if change.path in rollback.files {
        rollback.AppendEntry(change.path, None, Created);
      }
    }

    /** A tool execution between its hooks is one call of the run model. */
    method Execute(key: string, target: Option<string>, after: map<string, string>, raised: bool, success: bool,
                   ghost m: Memory)
      requires target.None? ==> key !in pending
      modifies this, rollback
      ensures rollback.View() == ToolCall(old(rollback.View()), target, after, raised, success)
      ensures pending.Keys <= old(pending.Keys) + (if target.Some? then {key} else {})
      ensures StandsFor(old(rollback.View()), m) ==>
              StandsFor(rollback.View(), Remember(m, Call(key, target, after, raised, success)))
    {
      if StandsFor(rollback.View(), m) {
        StepKeeps(rollback.View(), Call(key, target, after, raised, success), m);
      }
      Before(key, target);
      rollback.files := after;
      if !raised {
        After(key, success);
      }
    }
  }

  /** An action key holds the tool's name and its arguments, so it settles the path that the
      call may change; `names` is that reading of a key. */
  ghost predicate Named(op: Op, names: string -> Option<string>) {
    op.Call? ==> names(op.key) == op.target
  }

  /** Changes wait only under the keys of calls with a target. */
  ghost predicate Waiting(pending: map<string, seq<Change>>, names: string -> Option<string>) {
    forall key | key in pending :: names(key).Some?
  }

  /** One operation of a session on the objects that the session holds. */
  method Perform(hooks: SafetyHooks, op: Op, ghost m: Memory, ghost names: string -> Option<string>)
    returns (now: SafetyHooks)
    requires StandsFor(hooks.rollback.View(), m) && Named(op, names) && Waiting(hooks.pending, names)
    modifies hooks, hooks.rollback
    ensures now == hooks || (fresh(now) && fresh(now.rollback))
    ensures Waiting(now.pending, names)
    ensures now.rollback.View() == Step(old(hooks.rollback.View()), op)
    ensures StandsFor(now.rollback.View(), Remember(m, op))
  {
    now := hooks;
    StepKeeps(hooks.rollback.View(), op, m);
    match op {
      case Call(key, target, after, raised, success) =>
        hooks.Execute(key, target, after, raised, success, m);
      case Edit(after) =>
        hooks.rollback.files := after;
      case Undo =>
        var _ := hooks.rollback.UndoLastChange();
      case Reopen =>
        var manager := new RollbackManager(hooks.rollback.files, hooks.rollback.backups, hooks.rollback.log);
        now := new SafetyHooks(manager);
    }
  }

  /** A session of tool calls, outside edits, undos and reopenings, then everything undone: each
      changed path holds what it held before its earliest change, every other is untouched. */
  method UndoSession(files: map<string, string>, backups: map<string, string>, ops: seq<Op>,
                     ghost names: string -> Option<string>)
    returns (end: map<string, string>)
    requires forall op | op in ops :: Named(op, names)
    ensures forall path :: Lookup(end, path) == Restored(Remembered(Memory(files, []), ops), path)
  {
    var manager := new RollbackManager(files, backups, []);
    var hooks := new SafetyHooks(manager);
    ghost var m := Memory(files, []);
    for k := 0 to |ops|
      invariant fresh(hooks) && fresh(hooks.rollback) && Waiting(hooks.pending, names)
      invariant m == Remembered(Memory(files, []), ops[..k]) && StandsFor(hooks.rollback.View(), m)
    {
      assert ops[..k + 1][..k] == ops[..k];
      hooks := Perform(hooks, ops[k], m, names);
      m := Remember(m, ops[k]);
    }
    assert ops[..|ops|] == ops;
    ghost var s := hooks.rollback.View();
    var _, error := hooks.rollback.UndoEverything();
    end := hooks.rollback.files;
    forall path ensures Lookup(end, path) == Restored(m, path) {
      UndoAllInv(s, m, path);
    }
  }
}
