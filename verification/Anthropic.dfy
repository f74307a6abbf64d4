/** Shaping a conversation for the Anthropic message API: system text apart, tool calls and
    their results as content blocks. */
module Anthropic {
  import opened Text
  import opened ToolBatch

  datatype Use = Use(id: string, name: string, input: string)

  datatype Role = UserRole | AssistantRole

  datatype ToolResultBlock = ToolResultBlock(id: string, content: string)

  datatype ApiMessage =
    | Plain(role: Role, text: string)
    | Uses(lead: Option<string>, uses: seq<Use>)      // assistant blocks: text, then tool_use
    | Results(results: seq<ToolResultBlock>)          // one user message of tool_result blocks

  // ---------- well paired conversations ----------

  predicate AnswersCalls(answers: seq<Message>, calls: seq<ToolCall>) {
    |answers| == |calls| && forall i | 0 <= i < |calls| :: answers[i].Tool? && answers[i].id == calls[i].id
  }

  /** Every assistant message with n calls is followed by n tool messages with the same ids in
      the same order, and there are no other tool messages. */
  predicate Paired(ms: seq<Message>) {
    if ms == [] then true
    else if ms[0].Tool? then false
    else if ms[0].Assistant? then
      var n := |ms[0].calls|;
      |ms| >= 1 + n && AnswersCalls(ms[1..1 + n], ms[0].calls) && Paired(ms[1 + n..])
    else Paired(ms[1..])
  }

  lemma {:induction false} PairedConcat(a: seq<Message>, b: seq<Message>)
    requires Paired(a) && Paired(b)
    ensures Paired(a + b)
  {
    if a == [] {
      assert a + b == b;
    } else {
      var n := if a[0].Assistant? then |a[0].calls| else 0;
      PairedConcat(a[1 + n..], b);
      assert (a + b)[1..1 + n] == a[1..1 + n];
      assert (a + b)[1 + n..] == a[1 + n..] + b;
    }
  }

  // ---------- formatting ----------

  function UseOf(parse: string -> Parsed, call: ToolCall): Use {
    Use(call.id, if call.name.Some? then call.name.value else "", parse(call.arguments).arguments)
  }

  function UsesOf(parse: string -> Parsed, calls: seq<ToolCall>): seq<Use> {
    seq(|calls|, i requires 0 <= i < |calls| => UseOf(parse, calls[i]))
  }

  /** How many tool messages a sequence starts with. */
  function LeadingTools(ms: seq<Message>): (n: nat)
    ensures n <= |ms| && (forall i | 0 <= i < n :: ms[i].Tool?) && (n < |ms| ==> !ms[n].Tool?)
  {
    if ms == [] || !ms[0].Tool? then 0 else 1 + LeadingTools(ms[1..])
  }

  function ResultsOf(ms: seq<Message>): seq<ToolResultBlock>
    requires forall i | 0 <= i < |ms| :: ms[i].Tool?
  {
    seq(|ms|, i requires 0 <= i < |ms| => ToolResultBlock(ms[i].id, ms[i].content))
  }

  function Format(parse: string -> Parsed, ms: seq<Message>): seq<ApiMessage>
    decreases |ms|
  {
    if ms == [] then []
    else match ms[0]
      case System(_) => Format(parse, ms[1..])
      case User(text) => [Plain(UserRole, text)] + Format(parse, ms[1..])
      case Assistant(text, calls) =>
        var head := if calls == [] then Plain(AssistantRole, text)
                    else Uses(if text != "" then Some(text) else None, UsesOf(parse, calls));
        [head] + Format(parse, ms[1..])
      case Tool(_, _, _) =>
        var n := LeadingTools(ms);
        [Results(ResultsOf(ms[..n]))] + Format(parse, ms[n..])
  }

  function SystemParts(ms: seq<Message>): seq<string> {
    if ms == [] then []
    else if ms[0].System? then [ms[0].content] + SystemParts(ms[1..])
    else SystemParts(ms[1..])
  }

  /** The texts with a blank line between any two. */
  function BlankLines(parts: seq<string>): string {
    if parts == [] then ""
    else if |parts| == 1 then parts[0]
    else parts[0] + "\n\n" + BlankLines(parts[1..])
  }

  lemma {:induction false} SystemPartsSkip(ms: seq<Message>, n: nat)
    requires n <= |ms| && forall i | 0 <= i < n :: !ms[i].System?
    ensures SystemParts(ms) == SystemParts(ms[n..])
  {
    if n == 0 {
      assert ms[0..] == ms;
    } else {
      SystemPartsSkip(ms[1..], n - 1);
      assert ms[1..][n - 1..] == ms[n..];
    }
  }

  /** The inner loop: the run of tool messages from `start` on. */
  method GatherResults(ms: seq<Message>, start: nat) returns (index: nat, blocks: seq<ToolResultBlock>)
    requires start < |ms|
    ensures index == start + LeadingTools(ms[start..])
    ensures blocks == ResultsOf(ms[start..][..index - start])
  {
    index, blocks := start, [];
    while index < |ms| && ms[index].Tool?
      invariant start <= index <= |ms|
      invariant forall i | start <= i < index :: ms[i].Tool?
      invariant |blocks| == index - start
      invariant forall i | 0 <= i < |blocks| :: blocks[i] == ToolResultBlock(ms[start + i].id, ms[start + i].content)
    {
      blocks := blocks + [ToolResultBlock(ms[index].id, ms[index].content)];
      index := index + 1;
    }
    LeadingToolsIs(ms[start..], index - start);
  }

  lemma LeadingToolsIs(ms: seq<Message>, n: nat)
    requires n <= |ms| && (forall i | 0 <= i < n :: ms[i].Tool?) && (n < |ms| ==> !ms[n].Tool?)
    ensures LeadingTools(ms) == n
  {
  }

  /** What one turn of the loop adds, and where it leaves off. */
  function Turn(parse: string -> Parsed, rest: seq<Message>): (seq<string>, seq<ApiMessage>, nat)
    requires rest != []
  {
    match rest[0]
    case System(text) => ([text], [], 1)
    case User(text) => ([], [Plain(UserRole, text)], 1)
    case Assistant(text, calls) =>
      ([], [if calls == [] then Plain(AssistantRole, text)
            else Uses(if text != "" then Some(text) else None, UsesOf(parse, calls))], 1)
    case Tool(_, _, _) =>
      ([], [Results(ResultsOf(rest[..LeadingTools(rest)]))], LeadingTools(rest))
  }

  lemma TurnAdds(parse: string -> Parsed, rest: seq<Message>)
    requires rest != []
    ensures var (system, api, n) := Turn(parse, rest);
            && 0 < n <= |rest|
            && SystemParts(rest) == system + SystemParts(rest[n..])
            && Format(parse, rest) == api + Format(parse, rest[n..])
  {
    if rest[0].Tool? {
      SystemPartsSkip(rest, LeadingTools(rest));
    }
  }

  method FormatOne(parse: string -> Parsed, ms: seq<Message>, start: nat)
    returns (system: seq<string>, api: seq<ApiMessage>, index: nat)
    requires start < |ms|
    ensures (system, api, index - start) == Turn(parse, ms[start..])
  {
    system, api, index := [], [], start + 1;
    match ms[start] {
      case System(text) =>
        system := [text];
      case Tool(_, _, _) =>
        var blocks;
        index, blocks := GatherResults(ms, start);
        api := [Results(blocks)];
      case Assistant(text, calls) =>
        if calls != [] {
          api := [Uses(if text != "" then Some(text) else None, UsesOf(parse, calls))];
        } else {
          api := [Plain(AssistantRole, text)];
        }
      case User(text) =>
        api := [Plain(UserRole, text)];
    }
  }

  /** `_format_messages`: one pass with an advancing index, gathering runs of tool messages. */
  method FormatMessages(parse: string -> Parsed, ms: seq<Message>) returns (system: string, api: seq<ApiMessage>)
    ensures system == BlankLines(SystemParts(ms))
    ensures api == Format(parse, ms)
  {
    var parts := [];
    api := [];
    var index := 0;
    assert ms[0..] == ms;
    while index < |ms|
      invariant index <= |ms|
      invariant parts + SystemParts(ms[index..]) == SystemParts(ms)
      invariant api + Format(parse, ms[index..]) == Format(parse, ms)
    {
      TurnFrom(parse, ms, index);
      var texts, sent, next := FormatOne(parse, ms, index);
      Assoc(parts, texts, SystemParts(ms[next..]));
      Assoc(api, sent, Format(parse, ms[next..]));
      parts, api, index := parts + texts, api + sent, next;
    }
    Unit(parts);
    Unit(api);
    system := BlankLines(parts);
  }

  lemma TurnFrom(parse: string -> Parsed, ms: seq<Message>, index: nat)
    requires index < |ms|
    ensures var (system, api, n) := Turn(parse, ms[index..]);
            && 0 < n <= |ms| - index
            && SystemParts(ms[index..]) == system + SystemParts(ms[index + n..])
            && Format(parse, ms[index..]) == api + Format(parse, ms[index + n..])
  {
    TurnAdds(parse, ms[index..]);
    assert ms[index..][Turn(parse, ms[index..]).2..] == ms[index + Turn(parse, ms[index..]).2..];
  }

  // ---------- nothing is lost ----------

  /** What the API keeps of one message. */
  datatype Item = PlainItem(role: Role, text: string) | CallItem(text: string, uses: seq<Use>)
                | ResultItem(block: ToolResultBlock)

  function ItemOf(parse: string -> Parsed, m: Message): Item
    requires !m.System?
  {
    match m
    case User(text) => PlainItem(UserRole, text)
    case Assistant(text, calls) =>
      if calls == [] then PlainItem(AssistantRole, text) else CallItem(text, UsesOf(parse, calls))
    case Tool(id, _, content) => ResultItem(ToolResultBlock(id, content))
  }

  /** One item per non-system message, in order. */
  function Items(parse: string -> Parsed, ms: seq<Message>): seq<Item> {
    if ms == [] then []
    else if ms[0].System? then Items(parse, ms[1..])
    else [ItemOf(parse, ms[0])] + Items(parse, ms[1..])
  }

  function ItemsIn(m: ApiMessage): seq<Item> {
    match m
    case Plain(role, text) => [PlainItem(role, text)]
    case Uses(lead, uses) => [CallItem(if lead.Some? then lead.value else "", uses)]
    case Results(rs) => seq(|rs|, i requires 0 <= i < |rs| => ResultItem(rs[i]))
  }

  function Flatten(api: seq<ApiMessage>): seq<Item> {
    if api == [] then [] else ItemsIn(api[0]) + Flatten(api[1..])
  }

  function RunItems(parse: string -> Parsed, run: seq<Message>): (items: seq<Item>)
    requires forall i | 0 <= i < |run| :: run[i].Tool?
    ensures items == ItemsIn(Results(ResultsOf(run)))
  {
    seq(|run|, i requires 0 <= i < |run| => ItemOf(parse, run[i]))
  }

  lemma {:induction false} ToolItems(parse: string -> Parsed, run: seq<Message>, rest: seq<Message>)
    requires forall i | 0 <= i < |run| :: run[i].Tool?
    ensures Items(parse, run + rest) == RunItems(parse, run) + Items(parse, rest)
  {
    if run == [] {
      assert run + rest == rest;
    } else {
      var ms := run + rest;
      assert ms[0] == run[0] && ms[1..] == run[1..] + rest;
      ToolItems(parse, run[1..], rest);
      assert RunItems(parse, run) == [ItemOf(parse, run[0])] + RunItems(parse, run[1..]);
    }
  }

  /** For every conversation: reading the formatted messages back gives each non-system message
      once, in order, none lost, duplicated or moved. */
  lemma {:induction false} FormatLossless(parse: string -> Parsed, ms: seq<Message>)
    ensures Flatten(Format(parse, ms)) == Items(parse, ms)
    decreases |ms|
  {
    if ms != [] {
      if ms[0].Tool? {
        var n := LeadingTools(ms);
        FormatLossless(parse, ms[n..]);
        assert ms == ms[..n] + ms[n..];
        ToolItems(parse, ms[..n], ms[n..]);
      } else {
        FormatLossless(parse, ms[1..]);
      }
    }
  }

  /** Each use block has its own call's id and name, and the arguments as read. */
  lemma UsesExact(parse: string -> Parsed, calls: seq<ToolCall>, i: nat)
    requires i < |calls|
    ensures var (use, call) := (UsesOf(parse, calls)[i], calls[i]);
            && |UsesOf(parse, calls)| == |calls|
            && use.id == call.id && use.input == parse(call.arguments).arguments
            && (call.name.Some? ==> call.name.value == use.name) && (call.name.None? ==> use.name == "")
  {
  }

  // ---------- the system text ----------

  /** The system texts are those of the system messages, in order. */
  lemma {:induction false} SystemPartsSnoc(ms: seq<Message>, last: Message)
    ensures SystemParts(ms + [last]) == SystemParts(ms) + if last.System? then [last.content] else []
  {
    if ms == [] {
      assert [last][1..] == [] && [] + [last] == [last];
    } else {
      RestOfConcat(ms, [last]);
      SystemPartsSnoc(ms[1..], last);
      Assoc(if ms[0].System? then [ms[0].content] else [], SystemParts(ms[1..]),
            if last.System? then [last.content] else []);
    }
  }

  /** A further text stands behind a blank line. */
  lemma {:induction false} BlankLinesSnoc(parts: seq<string>, last: string)
    ensures BlankLines(parts + [last]) == if parts == [] then last else BlankLines(parts) + "\n\n" + last
  {
    if parts != [] {
      RestOfConcat(parts, [last]);
      BlankLinesSnoc(parts[1..], last);
      if |parts| > 1 {
        Assoc(parts[0] + "\n\n", BlankLines(parts[1..]), "\n\n" + last);
        Assoc(parts[0] + "\n\n" + BlankLines(parts[1..]), "\n\n", last);
        Assoc(BlankLines(parts[1..]), "\n\n", last);
      }
    }
  }

  // ---------- calls meet their results ----------

  predicate SameIds(uses: seq<Use>, results: seq<ToolResultBlock>) {
    |uses| == |results| && forall i | 0 <= i < |uses| :: uses[i].id == results[i].id
  }

  /** Each tool-use message is immediately followed by one user message with its results, in
      order, and results stand nowhere else. */
  predicate CallsMeetResults(api: seq<ApiMessage>) {
    && (forall k | 0 <= k < |api| && api[k].Uses? ::
          k + 1 < |api| && api[k + 1].Results? && SameIds(api[k].uses, api[k + 1].results))
    && (forall k | 0 <= k < |api| && api[k].Results? :: k > 0 && api[k - 1].Uses?)
  }

  lemma MeetConcat(a: seq<ApiMessage>, b: seq<ApiMessage>)
    requires CallsMeetResults(a) && CallsMeetResults(b)
    ensures CallsMeetResults(a + b)
  {
    var all := a + b;
    forall k | 0 <= k < |all| && all[k].Results? ensures k > 0 && all[k - 1].Uses? {
      if k >= |a| {
        assert b[k - |a|].Results?;
      }
    }
  }

  /** A call message and its answers become a pair of API messages. */
  lemma FormatPair(parse: string -> Parsed, ms: seq<Message>)
    requires Paired(ms) && ms != [] && ms[0].Assistant? && ms[0].calls != []
    ensures var n := 1 + |ms[0].calls|;
            && n <= |ms| && Paired(ms[n..])
            && (forall i | 1 <= i < n :: ms[i].Tool?)
            && var pair := [Uses(if ms[0].content != "" then Some(ms[0].content) else None, UsesOf(parse, ms[0].calls)),
                            Results(ResultsOf(ms[1..n]))];
               CallsMeetResults(pair) && Format(parse, ms) == pair + Format(parse, ms[n..])
  {
    var n := |ms[0].calls|;
    var rest := ms[1..];
    assert rest[n..] == ms[1 + n..] && rest[..n] == ms[1..1 + n];
    assert forall i | 1 <= i < 1 + n :: ms[1..1 + n][i - 1] == ms[i];
    RunLength(rest, n);
    var use := Uses(if ms[0].content != "" then Some(ms[0].content) else None, UsesOf(parse, ms[0].calls));
    var results := Results(ResultsOf(ms[1..1 + n]));
    assert Format(parse, rest) == [results] + Format(parse, rest[n..]);
    Assoc([use], [results], Format(parse, rest[n..]));
    assert [use] + [results] == [use, results];
  }

  /** A well paired conversation is formatted with every call next to its results. */
  lemma {:induction false} PairedMeets(parse: string -> Parsed, ms: seq<Message>)
    requires Paired(ms)
    ensures CallsMeetResults(Format(parse, ms))
    decreases |ms|
  {
    if ms != [] {
      if ms[0].Assistant? && ms[0].calls != [] {
        FormatPair(parse, ms);
        var n := 1 + |ms[0].calls|;
        PairedMeets(parse, ms[n..]);
        MeetConcat(Format(parse, ms)[..2], Format(parse, ms[n..]));
      } else {
        PairedMeets(parse, ms[1..]);
        if !ms[0].System? {
          MeetConcat([Format(parse, ms)[0]], Format(parse, ms[1..]));
        }
      }
    }
  }

  /** The run of results after a call ends where the conversation goes on. */
  lemma RunLength(rest: seq<Message>, n: nat)
    requires n <= |rest| && (forall i | 0 <= i < n :: rest[..n][i].Tool?) && Paired(rest[n..])
    ensures LeadingTools(rest) == n
  {
    assert forall i | 0 <= i < n :: rest[..n][i] == rest[i];
    assert n < |rest| ==> rest[n..][0] == rest[n];
  }
}
