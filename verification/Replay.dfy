/** Recovering missing user/assistant turns of a session from its runtime event log. */
module Replay {
  import opened Text

  datatype Role = User | Assistant | Other

  datatype Message = Message(role: Role, content: string)

  /** A log record after parsing: a user prompt, a turn completion, or neither. Empty ids
      and blank texts parse as neither. */
  datatype Record =
    | Prompt(sid: string, text: string)
    | Completion(sid: string, text: string)
    | Ignored

  /** A line of the log as read: a submission, a completed turn, or anything else. */
  datatype Line =
    | Submission(sid: string, userTurn: bool, prompt: string)
    | TurnCompleted(sid: string, finalText: string, summary: string, message: string)
    | OtherLine

  /** `_parse_submission`. */
  function ParsePrompt(sid: string, userTurn: bool, prompt: string): Record {
    var text := Strip(prompt);
    if !userTurn || sid == "" || text == "" then Ignored else Prompt(sid, text)
  }

  /** `_parse_completion_event` for a completed turn: final text, else summary, else message. */
  function ParseCompletion(sid: string, finalText: string, summary: string, message: string): Record {
    var data := Strip(if finalText != "" then finalText else summary);
    var text := if data != "" then data else Strip(message);
    if sid == "" || text == "" then Ignored else Completion(sid, text)
  }

  function ParseLine(line: Line): Record {
    match line
    case Submission(sid, userTurn, prompt) => ParsePrompt(sid, userTurn, prompt)
    case TurnCompleted(sid, finalText, summary, message) => ParseCompletion(sid, finalText, summary, message)
    case OtherLine => Ignored
  }

  /** A line is a prompt exactly when it is a user's turn with an id and a text that is not blank. */
  lemma PromptExact(line: Line, sid: string, text: string)
    ensures ParseLine(line) == Prompt(sid, text) <==>
            && line.Submission? && line.userTurn && line.sid == sid && sid != ""
            && Strip(line.prompt) == text && text != ""
  {
  }

  /** The text that a completed turn is recorded with; a final text of blanks hides the summary. */
  function CompletionText(line: Line): string
    requires line.TurnCompleted?
  {
    if Strip(line.finalText) != "" then Strip(line.finalText)
    else if line.finalText == "" && Strip(line.summary) != "" then Strip(line.summary)
    else Strip(line.message)
  }

  lemma CompletionExact(line: Line, sid: string, text: string)
    ensures ParseLine(line) == Completion(sid, text) <==>
            line.TurnCompleted? && line.sid == sid && sid != "" && CompletionText(line) == text && text != ""
  {
  }

  function Parsed(lines: seq<Line>): seq<Record> {
    seq(|lines|, i requires 0 <= i < |lines| => ParseLine(lines[i]))
  }

  // ---------- collecting the log ----------

  datatype Index = Index(prompts: map<string, string>, completions: map<string, string>, order: seq<string>)

  function AddRecord(x: Index, r: Record): Index {
    match r
    case Prompt(sid, text) =>
      x.(prompts := x.prompts[sid := text], order := if sid in x.prompts then x.order else x.order + [sid])
    case Completion(sid, text) => x.(completions := x.completions[sid := text])
    case Ignored => x
  }

  function IndexFrom(x: Index, records: seq<Record>): Index {
    if records == [] then x else AddRecord(IndexFrom(x, records[..|records| - 1]), records[|records| - 1])
  }

  function Collect(records: seq<Record>): Index {
    IndexFrom(Index(map[], map[], []), records)
  }

  // ---------- recovering ----------

  /** `_has_user_assistant_pair`. */
  predicate HasPair(history: seq<Message>, prompt: string, completion: string) {
    exists i | 0 <= i < |history| - 1 ::
      history[i] == Message(User, prompt) && history[i + 1] == Message(Assistant, completion)
  }

  function Recover(history: seq<Message>, prompt: string, completion: string): seq<Message> {
    if HasPair(history, prompt, completion) then history
    else if history != [] && history[|history| - 1] == Message(User, prompt) then
      history + [Message(Assistant, completion)]
    else history + [Message(User, prompt), Message(Assistant, completion)]
  }

  predicate Complete(x: Index, sid: string) {
    sid in x.prompts && sid in x.completions
  }

  function RecoverId(history: seq<Message>, x: Index, sid: string): seq<Message> {
    if Complete(x, sid) then Recover(history, x.prompts[sid], x.completions[sid]) else history
  }

  /** The history after the submissions `ids`, in order. */
  function RecoverAll(history: seq<Message>, x: Index, ids: seq<string>): seq<Message> {
    if ids == [] then history
    else RecoverId(RecoverAll(history, x, ids[..|ids| - 1]), x, ids[|ids| - 1])
  }

  /** How many submissions the pass recovered. */
  function Recovered(history: seq<Message>, x: Index, ids: seq<string>): nat {
    if ids == [] then 0
    else
      var front := ids[..|ids| - 1];
      Recovered(history, x, front) +
      if RecoverAll(history, x, ids) != RecoverAll(history, x, front) then 1 else 0
  }

  function Replayed(history: seq<Message>, records: seq<Record>): seq<Message> {
    RecoverAll(history, Collect(records), Collect(records).order)
  }

  /** The loop over the log. */
  method CollectLog(lines: seq<Line>) returns (x: Index)
    ensures x == Collect(Parsed(lines))
  {
    ghost var records := Parsed(lines);
    x := Index(map[], map[], []);
    for i := 0 to |lines|
      invariant x == Collect(records[..i])
    {
      assert records[..i + 1][..i] == records[..i];
      match ParseLine(lines[i]) {
        case Prompt(sid, text) =>
          if sid !in x.prompts {
            x := x.(order := x.order + [sid]);
          }
          x := x.(prompts := x.prompts[sid := text]);
        case Completion(sid, text) =>
          x := x.(completions := x.completions[sid := text]);
        case Ignored =>
      }
    }
    assert records[..|records|] == records;
  }

  /** The session: its history is appended to in place. */
  class Session {
    var history: seq<Message>
    var messageCount: nat

    constructor (history: seq<Message>)
      ensures this.history == history && messageCount == |history|
    {
      this.history, this.messageCount := history, |history|;
    }

    /** `replay_session_from_event_log`: one loop over the log, one over the submissions. */
    method Replay(lines: seq<Line>) returns (recovered: nat)
      modifies this
      ensures history == Replayed(old(history), Parsed(lines))
      ensures recovered == Recovered(old(history), Collect(Parsed(lines)), Collect(Parsed(lines)).order)
      ensures messageCount == if recovered > 0 then |history| else old(messageCount)
    {
      var x := CollectLog(lines);
      recovered := 0;
      for i := 0 to |x.order|
        invariant history == RecoverAll(old(history), x, x.order[..i]) && messageCount == old(messageCount)
        invariant recovered == Recovered(old(history), x, x.order[..i])
      {
        assert x.order[..i + 1][..i] == x.order[..i];
        var added := RecoverOne(x, x.order[i]);
        recovered := recovered + if added then 1 else 0;
      }
      assert x.order[..|x.order|] == x.order;
      if recovered > 0 {
        messageCount := |history|;
      }
    }

    method RecoverOne(x: Index, sid: string) returns (added: bool)
      modifies this`history
      ensures history == RecoverId(old(history), x, sid)
      ensures added == (history != old(history))
    {
      if sid !in x.prompts || sid !in x.completions {
        return false;
      }
      var prompt, completion := x.prompts[sid], x.completions[sid];
      var found := FindPair(prompt, completion);
      if found {
        return false;
      }
      if history == [] || history[|history| - 1] != Message(User, prompt) {
        history := history + [Message(User, prompt), Message(Assistant, completion)];
      } else {
        history := history + [Message(Assistant, completion)];
      }
      return true;
    }

    method FindPair(prompt: string, completion: string) returns (found: bool)
      ensures found <==> HasPair(history, prompt, completion)
    {
      var pairs := if history == [] then 0 else |history| - 1;
      for i := 0 to pairs
        invariant forall j | 0 <= j < i ::
                    !(history[j] == Message(User, prompt) && history[j + 1] == Message(Assistant, completion))
      {
        if history[i] == Message(User, prompt) && history[i + 1] == Message(Assistant, completion) {
          return true;
        }
      }
      return false;
    }
  }

  // ---------- what a pass guarantees ----------

  /** History only grows at its end. */
  lemma {:induction false} HistoryKept(h: seq<Message>, x: Index, ids: seq<string>)
    ensures h <= RecoverAll(h, x, ids)
  {
    if ids != [] {
      HistoryKept(h, x, ids[..|ids| - 1]);
    }
  }

  lemma PairKept(h: seq<Message>, g: seq<Message>, prompt: string, completion: string)
    requires h <= g && HasPair(h, prompt, completion)
    ensures HasPair(g, prompt, completion)
  {
    var i :| 0 <= i < |h| - 1 && h[i] == Message(User, prompt) && h[i + 1] == Message(Assistant, completion);
    assert g[i] == h[i] && g[i + 1] == h[i + 1];
  }

  lemma RecoverGivesPair(h: seq<Message>, prompt: string, completion: string)
    ensures HasPair(Recover(h, prompt, completion), prompt, completion)
  {
    var g := Recover(h, prompt, completion);
    if !HasPair(h, prompt, completion) {
      assert g[|g| - 2] == Message(User, prompt) && g[|g| - 2 + 1] == Message(Assistant, completion);
    }
  }

  lemma {:induction false} RecoveredPair(h: seq<Message>, x: Index, ids: seq<string>, sid: string)
    requires sid in ids && Complete(x, sid)
    ensures HasPair(RecoverAll(h, x, ids), x.prompts[sid], x.completions[sid])
  {
    var front := ids[..|ids| - 1];
    if sid == ids[|ids| - 1] {
      RecoverGivesPair(RecoverAll(h, x, front), x.prompts[sid], x.completions[sid]);
    } else {
      RecoveredPair(h, x, front, sid);
      HistoryKept(RecoverAll(h, x, front), x, [ids[|ids| - 1]]);
      assert [ids[|ids| - 1]][..0] == [];
      PairKept(RecoverAll(h, x, front), RecoverAll(h, x, ids), x.prompts[sid], x.completions[sid]);
    }
  }

  lemma {:induction false} GrowthBounds(h: seq<Message>, x: Index, ids: seq<string>)
    ensures |h| + Recovered(h, x, ids) <= |RecoverAll(h, x, ids)| <= |h| + 2 * Recovered(h, x, ids)
  {
    if ids != [] {
      GrowthBounds(h, x, ids[..|ids| - 1]);
    }
  }

  /** Once every complete submission has its pair, a pass changes nothing. */
  lemma {:induction false} NothingLeft(h: seq<Message>, x: Index, ids: seq<string>)
    requires forall sid | sid in ids && Complete(x, sid) :: HasPair(h, x.prompts[sid], x.completions[sid])
    ensures RecoverAll(h, x, ids) == h
  {
    if ids != [] {
      NothingLeft(h, x, ids[..|ids| - 1]);
    }
  }

  lemma {:induction false} RecoverTwice(h: seq<Message>, x: Index, ids: seq<string>)
    ensures RecoverAll(RecoverAll(h, x, ids), x, ids) == RecoverAll(h, x, ids)
  {
    forall sid | sid in ids && Complete(x, sid)
      ensures HasPair(RecoverAll(h, x, ids), x.prompts[sid], x.completions[sid])
    {
      RecoveredPair(h, x, ids, sid);
    }
    NothingLeft(RecoverAll(h, x, ids), x, ids);
  }

  /** A message that the log holds for one of the given submissions. */
  ghost predicate FromLog(x: Index, ids: seq<string>, m: Message) {
    exists sid | sid in ids && Complete(x, sid) ::
      m == Message(User, x.prompts[sid]) || m == Message(Assistant, x.completions[sid])
  }

  /** Messages are added only for complete submissions. */
  lemma {:induction false} OnlyFromLog(h: seq<Message>, x: Index, ids: seq<string>, i: nat)
    requires |h| <= i < |RecoverAll(h, x, ids)|
    ensures FromLog(x, ids, RecoverAll(h, x, ids)[i])
  {
    var front, last := ids[..|ids| - 1], ids[|ids| - 1];
    var before := RecoverAll(h, x, front);
    if i < |before| {
      OnlyFromLog(h, x, front, i);
      HistoryKept(before, x, [last]);
      assert [last][..0] == [];
    } else {
      assert last in ids && Complete(x, last);
    }
  }

  // ---------- the collected index ----------

  /** The submissions are the ids with a prompt, each once; the last prompt and the last
      completion of an id win. */
  lemma {:induction false} CollectExact(records: seq<Record>, sid: string)
    ensures var x := Collect(records);
            && (sid in x.order <==> sid in x.prompts)
            && (sid in x.prompts <==> LastText(records, sid, true).Some?)
            && (sid in x.completions <==> LastText(records, sid, false).Some?)
            && (sid in x.prompts ==> LastText(records, sid, true) == Some(x.prompts[sid]))
            && (sid in x.completions ==> LastText(records, sid, false) == Some(x.completions[sid]))
            && forall i, j | 0 <= i < j < |x.order| :: !(x.order[i] == sid && x.order[j] == sid)
  {
    if records != [] {
      CollectExact(records[..|records| - 1], sid);
    }
  }

  /** The text of the last prompt, or completion, that the records hold for an id. */
  function LastText(records: seq<Record>, sid: string, ofPrompt: bool): Option<string> {
    if records == [] then None
    else
      var r := records[|records| - 1];
      if !r.Ignored? && r.Prompt? == ofPrompt && r.sid == sid then Some(r.text)
      else LastText(records[..|records| - 1], sid, ofPrompt)
  }

  // ---------- whole passes ----------

  /** One pass: the old history stays in front; every submission with a prompt and a completion
      is there as an adjacent pair; growth is one or two messages per recovered pair; nothing
      else is added; and a second pass changes nothing. */
  lemma ReplayGuarantees(h: seq<Message>, records: seq<Record>)
    ensures var (g, x) := (Replayed(h, records), Collect(records));
            && h <= g
            && (forall sid | Complete(x, sid) :: HasPair(g, x.prompts[sid], x.completions[sid]))
            && (var n := Recovered(h, x, x.order); |h| + n <= |g| <= |h| + 2 * n)
            && (forall i | |h| <= i < |g| :: FromLog(x, x.order, g[i]))
            && Replayed(g, records) == g
  {
    var x := Collect(records);
    HistoryKept(h, x, x.order);
    forall sid | Complete(x, sid) ensures HasPair(Replayed(h, records), x.prompts[sid], x.completions[sid]) {
      CollectExact(records, sid);
      RecoveredPair(h, x, x.order, sid);
    }
    GrowthBounds(h, x, x.order);
    forall i | |h| <= i < |Replayed(h, records)|
      ensures FromLog(x, x.order, Replayed(h, records)[i])
    {
      OnlyFromLog(h, x, x.order, i);
    }
    RecoverTwice(h, x, x.order);
  }

  /** Starting a session and replaying its log twice: the second pass recovers nothing. */
  method Reconcile(history: seq<Message>, lines: seq<Line>) returns (session: Session, first: nat, second: nat)
    ensures fresh(session) && session.history == Replayed(history, Parsed(lines))
    ensures history <= session.history && session.messageCount == |session.history|
    ensures first == Recovered(history, Collect(Parsed(lines)), Collect(Parsed(lines)).order) && second == 0
  {
    session := new Session(history);
    first := session.Replay(lines);
    ReplayGuarantees(history, Parsed(lines));
    GrowthBounds(history, Collect(Parsed(lines)), Collect(Parsed(lines)).order);
    GrowthBounds(session.history, Collect(Parsed(lines)), Collect(Parsed(lines)).order);
    second := session.Replay(lines);
  }

  // ---------- a log prefix first ----------

  lemma {:induction false} CollectExtends(records: seq<Record>, more: seq<Record>)
    ensures Collect(records).order <= Collect(records + more).order
  {
    if more == [] {
      assert records + more == records;
    } else {
      CollectExtends(records, more[..|more| - 1]);
      assert (records + more)[..|records + more| - 1] == records + more[..|more| - 1];
    }
  }

  /** The extension leaves the data of the submissions seen so far as it was. */
  predicate SameData(x: Index, y: Index, ids: seq<string>) {
    forall sid | sid in ids :: Complete(x, sid) == Complete(y, sid) &&
      (Complete(x, sid) ==> x.prompts[sid] == y.prompts[sid] && x.completions[sid] == y.completions[sid])
  }

  lemma {:induction false} SameDataSameHistory(h: seq<Message>, x: Index, y: Index, ids: seq<string>)
    requires SameData(x, y, ids)
    ensures RecoverAll(h, x, ids) == RecoverAll(h, y, ids)
  {
    if ids != [] {
      SameDataSameHistory(h, x, y, ids[..|ids| - 1]);
    }
  }

  lemma {:induction false} RecoverConcat(h: seq<Message>, x: Index, ids: seq<string>, more: seq<string>)
    ensures RecoverAll(h, x, ids + more) == RecoverAll(RecoverAll(h, x, ids), x, more)
  {
    if more == [] {
      assert ids + more == ids;
    } else {
      RecoverConcat(h, x, ids, more[..|more| - 1]);
      assert (ids + more)[..|ids + more| - 1] == ids + more[..|more| - 1];
    }
  }

  /** Submissions that are not complete change nothing. */
  lemma {:induction false} IncompleteSkip(h: seq<Message>, x: Index, ids: seq<string>)
    requires forall i | 0 <= i < |ids| :: !Complete(x, ids[i])
    ensures RecoverAll(h, x, ids) == h
  {
    if ids != [] {
      IncompleteSkip(h, x, ids[..|ids| - 1]);
    }
  }

  /** Replaying part of a log and then the whole log is replaying the whole log, when the
      extension keeps what was known of the part's first `k` submissions and no later one was
      complete in the part; those may be completed, or changed, in any way. */
  lemma PartThenWhole(h: seq<Message>, records: seq<Record>, more: seq<Record>, k: nat)
    requires k <= |Collect(records).order|
    requires SameData(Collect(records), Collect(records + more), Collect(records).order[..k])
    requires forall i | k <= i < |Collect(records).order| :: !Complete(Collect(records), Collect(records).order[i])
    ensures Replayed(Replayed(h, records), records + more) == Replayed(h, records + more)
  {
    var (x, y) := (Collect(records), Collect(records + more));
    CollectExtends(records, more);
    var (first, later) := (x.order[..k], y.order[k..]);
    assert y.order == first + later && x.order == first + x.order[k..];
    RecoverConcat(h, x, first, x.order[k..]);
    IncompleteSkip(RecoverAll(h, x, first), x, x.order[k..]);
    SameDataSameHistory(h, x, y, first);
    RecoverConcat(h, y, first, later);
    RecoverConcat(Replayed(h, records), y, first, later);
    RecoverTwice(h, y, first);
  }

  // ---------- any history first ----------

  /** All the given complete submissions have their pairs already. */
  predicate AllPaired(h: seq<Message>, x: Index, ids: seq<string>) {
    forall sid | sid in ids && Complete(x, sid) :: HasPair(h, x.prompts[sid], x.completions[sid])
  }

  lemma RecoveredPaired(h: seq<Message>, x: Index, ids: seq<string>)
    ensures AllPaired(RecoverAll(h, x, ids), x, ids)
  {
    forall sid | sid in ids && Complete(x, sid)
      ensures HasPair(RecoverAll(h, x, ids), x.prompts[sid], x.completions[sid])
    {
      RecoveredPair(h, x, ids, sid);
    }
  }

  lemma PairedStays(h: seq<Message>, g: seq<Message>, x: Index, ids: seq<string>)
    requires h <= g && AllPaired(h, x, ids)
    ensures AllPaired(g, x, ids) && RecoverAll(g, x, ids) == g
  {
    forall sid | sid in ids && Complete(x, sid) ensures HasPair(g, x.prompts[sid], x.completions[sid]) {
      PairKept(h, g, x.prompts[sid], x.completions[sid]);
    }
    NothingLeft(g, x, ids);
  }

  /** A pass may be stopped anywhere, even inside a pair, and made again from there. */
  lemma {:induction false} PassFromWithin(h: seq<Message>, x: Index, ids: seq<string>, g: seq<Message>)
    requires h <= g <= RecoverAll(h, x, ids)
    ensures RecoverAll(g, x, ids) == RecoverAll(h, x, ids)
  {
    if ids != [] {
      var (front, last) := (ids[..|ids| - 1], ids[|ids| - 1]);
      var before := RecoverAll(h, x, front);
      if g <= before {
        PassFromWithin(h, x, front, g);
      } else {
        RecoveredPaired(h, x, front);
        PairedStays(before, g, x, front);
        FinishesPair(before, x, last, g);
      }
    }
  }

  lemma FinishesPair(h: seq<Message>, x: Index, sid: string, g: seq<Message>)
    requires h <= g <= RecoverId(h, x, sid) && g != h
    ensures RecoverId(g, x, sid) == RecoverId(h, x, sid)
  {
    var all := RecoverId(h, x, sid);
    RecoverGivesPair(h, x.prompts[sid], x.completions[sid]);
    if g != all {
      assert g == h + [Message(User, x.prompts[sid])];
      forall i | 0 <= i < |g| - 1
        ensures !(g[i] == Message(User, x.prompts[sid]) && g[i + 1] == Message(Assistant, x.completions[sid]))
      {
        if i + 1 < |h| {
          assert g[i] == h[i] && g[i + 1] == h[i + 1];
        }
      }
    }
  }

  /** Whatever was appended to a history before a pass: the pass then gives what it gives on the
      history itself if and only if what was appended is how that result goes on. */
  lemma AppendedFirstExact(h: seq<Message>, g: seq<Message>, records: seq<Record>)
    requires h <= g
    ensures Replayed(g, records) == Replayed(h, records) <==> g <= Replayed(h, records)
  {
    var x := Collect(records);
    HistoryKept(g, x, x.order);
    if g <= Replayed(h, records) {
      PassFromWithin(h, x, x.order, g);
    }
  }

  /** For every history, log and extension, however many submissions the extension completes or
      changes: replaying the part first makes no difference if and only if the whole log's
      result begins with the part's. */
  lemma PartFirstExact(h: seq<Message>, records: seq<Record>, more: seq<Record>)
    ensures Replayed(Replayed(h, records), records + more) == Replayed(h, records + more) <==>
            Replayed(h, records) <= Replayed(h, records + more)
  {
    HistoryKept(h, Collect(records), Collect(records).order);
    AppendedFirstExact(h, Replayed(h, records), records + more);
  }

  // ---------- a submission that is completed later ----------

  lemma {:induction false} EndsInAnswer(h: seq<Message>, x: Index, ids: seq<string>)
    ensures var g := RecoverAll(h, x, ids); g != h ==> |g| > |h| && g[|g| - 1].role == Assistant
  {
    if ids != [] {
      HistoryKept(h, x, ids);
      EndsInAnswer(h, x, ids[..|ids| - 1]);
      HistoryKept(h, x, ids[..|ids| - 1]);
    }
  }

  lemma OneId(h: seq<Message>, x: Index, sid: string)
    ensures RecoverAll(h, x, [sid]) == RecoverId(h, x, sid)
  {
    assert [sid][..0] == [];
    assert RecoverAll(h, x, []) == h;
  }

  lemma AddsOrHas(h: seq<Message>, p: string, c: string)
    ensures h <= Recover(h, p, c)
    ensures Recover(h, p, c) == h <==> HasPair(h, p, c)
  {
  }

  /** The part leaves submission `i` incomplete, the extension completes it, and changes nothing
      else of the part. */
  ghost predicate CompletedLater(x: Index, y: Index, i: nat)
    requires i < |x.order|
  {
    && !Complete(x, x.order[i]) && Complete(y, x.order[i])
    && SameData(x, y, x.order[..i]) && SameData(x, y, x.order[i + 1..])
  }

  /** What the part's submissions before and after the `i`th give. */
  function Before(h: seq<Message>, x: Index, i: nat): seq<Message>
    requires i < |x.order|
  {
    RecoverAll(h, x, x.order[..i])
  }

  function Behind(h: seq<Message>, x: Index, i: nat): seq<Message>
    requires i < |x.order|
  {
    RecoverAll(Before(h, x, i), x, x.order[i + 1..])
  }

  /** The submissions that only the extension brings. */
  function Extension(x: Index, y: Index): seq<string> {
    if |x.order| <= |y.order| then y.order[|x.order|..] else []
  }

  lemma LateParts(h: seq<Message>, records: seq<Record>, more: seq<Record>, i: nat)
    requires i < |Collect(records).order| && CompletedLater(Collect(records), Collect(records + more), i)
    ensures var (x, y) := (Collect(records), Collect(records + more));
            var (s, rest, later) := (x.order[i], x.order[i + 1..], Extension(x, y));
            && x.order <= y.order
            && Replayed(h, records) == Behind(h, x, i)
            && Behind(h, x, i) == RecoverAll(Before(h, x, i), y, rest)
            && Replayed(h, records + more)
               == RecoverAll(RecoverAll(Recover(Before(h, x, i), y.prompts[s], y.completions[s]), y, rest), y, later)
  {
    var (x, y) := (Collect(records), Collect(records + more));
    CollectExtends(records, more);
    var (front, s, rest, later) := (x.order[..i], x.order[i], x.order[i + 1..], Extension(x, y));
    assert x.order == front + [s] + rest && y.order == front + [s] + rest + later;
    FourParts(h, x, front, s, rest, []);
    assert front + [s] + rest + [] == x.order && RecoverAll(Behind(h, x, i), x, []) == Behind(h, x, i);
    SameDataSameHistory(h, x, y, front);
    SameDataSameHistory(Before(h, x, i), x, y, rest);
    FourParts(h, y, front, s, rest, later);
  }

  lemma FourParts(h: seq<Message>, x: Index, front: seq<string>, s: string, rest: seq<string>, later: seq<string>)
    ensures RecoverAll(h, x, front + [s] + rest + later)
            == RecoverAll(RecoverAll(RecoverId(RecoverAll(h, x, front), x, s), x, rest), x, later)
  {
    RecoverConcat(h, x, front + [s] + rest, later);
    RecoverConcat(h, x, front + [s], rest);
    RecoverConcat(h, x, front, [s]);
    OneId(RecoverAll(h, x, front), x, s);
  }

  /** For every history and log: when the extension completes one submission of the part, then
      replaying the part first makes no difference if and only if no submission behind it adds
      anything, or what they add begins with that submission's own recovery. */
  lemma CompletedLaterExact(h: seq<Message>, records: seq<Record>, more: seq<Record>, i: nat)
    requires i < |Collect(records).order| && CompletedLater(Collect(records), Collect(records + more), i)
    ensures var (x, y) := (Collect(records), Collect(records + more));
            var own := Recover(Before(h, x, i), y.prompts[x.order[i]], y.completions[x.order[i]]);
            Replayed(Replayed(h, records), records + more) == Replayed(h, records + more) <==>
            Behind(h, x, i) == Before(h, x, i) || own <= Behind(h, x, i)
  {
    var (x, y) := (Collect(records), Collect(records + more));
    var (before, behind) := (Before(h, x, i), Behind(h, x, i));
    var (s, rest, later) := (x.order[i], x.order[i + 1..], Extension(x, y));
    var (p, c) := (y.prompts[s], y.completions[s]);
    var own := Recover(before, p, c);
    LateParts(h, records, more, i);
    PartFirstExact(h, records, more);
    AddsOrHas(before, p, c);
    HistoryKept(before, y, rest);
    HistoryKept(own, y, rest);
    HistoryKept(RecoverAll(own, y, rest), y, later);
    if own <= behind {
      PassFromWithin(before, y, rest, own);
    } else if behind != before && behind <= Replayed(h, records + more) {
      EndsInAnswer(before, y, rest);
      CommonStart(before, p, c, behind, Replayed(h, records + more));
    }
  }

  /** A history that ends in an answer, and starts where a recovery starts, goes as far. */
  lemma CommonStart(h: seq<Message>, p: string, c: string, g: seq<Message>, all: seq<Message>)
    requires Recover(h, p, c) <= all && h <= g <= all && g != h && g[|g| - 1].role == Assistant
    ensures Recover(h, p, c) <= g
  {
    var own := Recover(h, p, c);
    assert |g| > |h| && g[|h|] == all[|h|];
    if |own| == |h| + 2 {
      assert own[|h|] == Message(User, p) && all[|h|] == own[|h|];
      assert |g| != |h| + 1;
    }
    assert own == all[..|own|] && g == all[..|g|];
  }

  // ---------- a submission that is changed later ----------

  /** Recoveries of different texts part at some place. */
  lemma DifferentRecoveries(h: seq<Message>, p: string, c: string, q: string, d: string) returns (k: nat)
    requires !HasPair(h, p, c) && !HasPair(h, q, d) && (p != q || c != d)
    ensures var (a, b) := (Recover(h, p, c), Recover(h, q, d)); k < |a| && k < |b| && a[k] != b[k]
  {
    k := if Recover(h, p, c)[|h|] != Recover(h, q, d)[|h|] then |h| else |h| + 1;
  }

  lemma OneOf(h: seq<Message>, x: Index, ids: seq<string>, i: nat)
    requires i < |ids|
    ensures RecoverId(RecoverAll(h, x, ids[..i]), x, ids[i]) <= RecoverAll(h, x, ids)
  {
    assert ids == ids[..i] + [ids[i]] + ids[i + 1..] + [];
    FourParts(h, x, ids[..i], ids[i], ids[i + 1..], []);
    HistoryKept(RecoverId(RecoverAll(h, x, ids[..i]), x, ids[i]), x, ids[i + 1..]);
  }

  /** Of every history and log: when the part and the whole log both recover the first submission
      on which they disagree, replaying the part first gives another history. */
  lemma ChangedDiffers(h: seq<Message>, records: seq<Record>, more: seq<Record>, i: nat)
    requires i < |Collect(records).order|
    requires var (x, y) := (Collect(records), Collect(records + more));
             var (before, s) := (Before(h, x, i), x.order[i]);
             && SameData(x, y, x.order[..i])
             && Complete(x, s) && !HasPair(before, x.prompts[s], x.completions[s])
             && Complete(y, s) && !HasPair(before, y.prompts[s], y.completions[s])
             && (x.prompts[s] != y.prompts[s] || x.completions[s] != y.completions[s])
    ensures Replayed(Replayed(h, records), records + more) != Replayed(h, records + more)
  {
    var (x, y, whole) := (Collect(records), Collect(records + more), Replayed(h, records + more));
    var (before, s) := (Before(h, x, i), x.order[i]);
    var (p, c, q, d) := (x.prompts[s], x.completions[s], y.prompts[s], y.completions[s]);
    CollectExtends(records, more);
    SameDataSameHistory(h, x, y, x.order[..i]);
    assert y.order[..i] == x.order[..i] && y.order[i] == s;
    OneOf(h, x, x.order, i);
    OneOf(h, y, y.order, i);
    PartFirstExact(h, records, more);
    var k := DifferentRecoveries(before, p, c, q, d);
  }

  /** The smallest such log: a later prompt for a recovered id. */
  lemma ChangedPromptDiffers(sid: string, first: string, later: string, answer: string)
    requires first != later
    ensures var (part, more) := ([Prompt(sid, first), Completion(sid, answer)], [Prompt(sid, later)]);
            Replayed(Replayed([], part), part + more) != Replayed([], part + more)
  {
    var part, more := [Prompt(sid, first), Completion(sid, answer)], [Prompt(sid, later)];
    var x, y := Collect(part), Collect(part + more);
    var e := Index(map[], map[], []);
    assert part[..1][..0] == [] && Collect(part[..1]) == AddRecord(Collect([]), part[0]);
    assert x == AddRecord(Collect(part[..1]), part[1]);
    assert (part + more)[..2] == part && y == AddRecord(Collect(part), more[0]);
    assert x == Index(map[sid := first], map[sid := answer], [sid]);
    assert y == Index(map[sid := later], map[sid := answer], [sid]);
    assert x.order[..0] == [];
    ChangedDiffers([], part, more, 0);
  }
}
