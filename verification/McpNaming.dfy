/** Model-visible names for the tools of several MCP servers: unique, and found by a renaming
    loop that always ends. */
module McpNaming {
  import opened Text

  /** The parts of the host language that are taken as given: `str.isalnum` on one character
      and the first eight hexadecimal digits of a hash of server and tool name. */
  datatype Host = Host(alnum: char -> bool, digest: (string, string) -> string)

  // ---------- sanitizing ----------

  function Cleaned(host: Host, name: string): (r: string)
    ensures |r| == |name|
    ensures forall i | 0 <= i < |r| :: r[i] == if host.alnum(name[i]) || name[i] == '_' then name[i] else '_'
  {
    if name == "" then ""
    else
      var c := name[|name| - 1];
      Cleaned(host, name[..|name| - 1]) + [if host.alnum(c) || c == '_' then c else '_']
  }

  function TrimLeft(s: string): (r: string)
    ensures r != "" ==> r[0] != '_'
  {
    if s != "" && s[0] == '_' then TrimLeft(s[1..]) else s
  }

  function TrimRight(s: string): (r: string)
    ensures r != "" ==> r[|r| - 1] != '_'
    ensures r <= s
  {
    if s != "" && s[|s| - 1] == '_' then TrimRight(s[..|s| - 1]) else s
  }

  function Trim(s: string): string {
    TrimRight(TrimLeft(s))
  }

  function Sanitize(host: Host, name: string): string {
    var collapsed := Trim(Cleaned(host, name));
    if collapsed != "" then collapsed else "tool"
  }

  predicate Allowed(host: Host, s: string) {
    forall i | 0 <= i < |s| :: host.alnum(s[i]) || s[i] == '_'
  }

  predicate Plain(host: Host, s: string) {
    s != "" && s[0] != '_' && s[|s| - 1] != '_' && Allowed(host, s)
  }

  lemma {:induction false} TrimLeftAllowed(host: Host, s: string)
    requires Allowed(host, s)
    ensures Allowed(host, TrimLeft(s))
  {
    if s != "" && s[0] == '_' {
      TrimLeftAllowed(host, s[1..]);
    }
  }

  lemma TrimPlain(host: Host, s: string)
    requires Allowed(host, s)
    ensures Trim(s) != "" ==> Plain(host, Trim(s))
  {
    TrimLeftAllowed(host, s);
    var both := TrimRight(TrimLeft(s));
    assert both <= TrimLeft(s);
  }

  lemma TrimNothing(host: Host, s: string)
    requires Plain(host, s)
    ensures Trim(s) == s
  {
  }

  lemma CleanedPlain(host: Host, name: string)
    ensures Allowed(host, Cleaned(host, name))
    ensures Plain(host, name) ==> Cleaned(host, name) == name
  {
    if Plain(host, name) {
      assert forall i | 0 <= i < |name| :: Cleaned(host, name)[i] == name[i];
    }
  }

  lemma {:induction false} TrimLeftExact(s: string) returns (i: nat)
    ensures i <= |s| && TrimLeft(s) == s[i..] && (forall k | 0 <= k < i :: s[k] == '_') && (i < |s| ==> s[i] != '_')
  {
    if s != "" && s[0] == '_' {
      i := TrimLeftExact(s[1..]);
      i := i + 1;
      assert s[1..][i - 1..] == s[i..];
      assert forall k | 0 < k < i :: s[k] == s[1..][k - 1];
    } else {
      i := 0;
    }
  }

  lemma {:induction false} TrimRightExact(s: string) returns (j: nat)
    ensures j <= |s| && TrimRight(s) == s[..j]
    ensures (forall k | j <= k < |s| :: s[k] == '_') && (j > 0 ==> s[j - 1] != '_')
  {
    if s != "" && s[|s| - 1] == '_' {
      j := TrimRightExact(s[..|s| - 1]);
    } else {
      j := |s|;
    }
  }

  /** What sanitizing does: every character that is not alphanumeric becomes an underscore, and of
      the result it keeps what stands between outer underscores, or "tool" if that is nothing. */
  lemma SanitizeKeeps(host: Host, name: string) returns (i: nat, j: nat)
    ensures i <= j <= |name|
    ensures forall k | 0 <= k < |name| && !(i <= k < j) :: !host.alnum(name[k]) || name[k] == '_'
    ensures i < j ==> host.alnum(name[i]) && host.alnum(name[j - 1])
    ensures i == j ==> Sanitize(host, name) == "tool"
    ensures i < j ==> |Sanitize(host, name)| == j - i && forall k | i <= k < j ::
              Sanitize(host, name)[k - i] == if host.alnum(name[k]) then name[k] else '_'
  {
    var c := Cleaned(host, name);
    i := TrimLeftExact(c);
    j := TrimRightExact(c[i..]);
    j := i + j;
    assert c[i..][..j - i] == c[i..j];
    assert forall k | j <= k < |c| :: c[k] == c[i..][k - i];
    if i < j {
      assert c[j - 1] == c[i..][j - i - 1];
    }
  }

  /** A sanitized name is a non-empty word without leading or trailing underscores, and
      sanitizing leaves exactly such words alone. */
  lemma SanitizeExact(host: Host, name: string)
    requires host.alnum('t') && host.alnum('o') && host.alnum('l')
    ensures Plain(host, Sanitize(host, name))
    ensures Sanitize(host, name) == name <==> Plain(host, name)
  {
    CleanedPlain(host, name);
    TrimPlain(host, Cleaned(host, name));
    FallbackPlain(host);
    SanitizePlain(host, name);
  }

  lemma FallbackPlain(host: Host)
    requires host.alnum('t') && host.alnum('o') && host.alnum('l')
    ensures Plain(host, "tool")
  {
    var s := "tool";
    assert s[0] == 't' && s[1] == 'o' && s[2] == 'o' && s[3] == 'l';
  }

  lemma SanitizePlain(host: Host, name: string)
    ensures Plain(host, name) ==> Sanitize(host, name) == name
  {
    if Plain(host, name) {
      CleanedPlain(host, name);
      TrimNothing(host, name);
    }
  }

  // ---------- one name ----------

  function PlainName(host: Host, server: string, tool: string): string {
    "mcp__" + server + "__" + Sanitize(host, tool)
  }

  function Stem(host: Host, server: string, tool: string): string {
    PlainName(host, server, tool) + "__" + host.digest(server, tool)
  }

  /** The names the renaming loop goes through. */
  function Candidate(stem: string, counter: nat): string {
    if counter == 0 then stem else stem + ("_" + Decimal(counter))
  }

  lemma CandidateInjective(stem: string, i: nat, j: nat)
    requires Candidate(stem, i) == Candidate(stem, j)
    ensures i == j
  {
    CandidateLength(stem, i);
    CandidateLength(stem, j);
    if i > 0 && j > 0 {
      var (a, b) := ("_" + Decimal(i), "_" + Decimal(j));
      assert (stem + a)[|stem|..] == a && (stem + b)[|stem|..] == b;
      assert a[1..] == Decimal(i) && b[1..] == Decimal(j);
      DecimalInjective(i, j);
    }
  }

  lemma CandidateLength(stem: string, i: nat)
    ensures |Candidate(stem, i)| > |stem| <==> i > 0
  {
  }

  function Candidates(stem: string, n: nat): set<string> {
    set k: nat | k < n :: Candidate(stem, k)
  }

  lemma {:induction false} CandidatesCount(stem: string, n: nat)
    ensures |Candidates(stem, n)| == n
  {
    if n > 0 {
      CandidatesCount(stem, n - 1);
      var last := Candidate(stem, n - 1);
      if last in Candidates(stem, n - 1) {
        var k: nat :| k < n - 1 && Candidate(stem, k) == last;
        CandidateInjective(stem, k, n - 1);
      }
      assert Candidates(stem, n) == Candidates(stem, n - 1) + {last};
    }
  }

  lemma SubsetCount(a: set<string>, b: set<string>)
    requires a <= b
    ensures |a| <= |b|
  {
    if a != {} {
      var x :| x in a;
      SubsetCount(a - {x}, b - {x});
    }
  }

  /** Pigeonhole: as many candidates as there are used names cannot all be used, and one more. */
  lemma Pigeonhole(stem: string, used: set<string>, n: nat)
    requires forall k: nat | k < n :: Candidate(stem, k) in used
    ensures n <= |used|
  {
    CandidatesCount(stem, n);
    SubsetCount(Candidates(stem, n), used);
  }

  /** The first free candidate from `counter` on. */
  function FirstFree(stem: string, used: set<string>, counter: nat): (c: nat)
    requires forall k: nat | k < counter :: Candidate(stem, k) in used
    ensures Candidate(stem, c) !in used && c <= |used|
    ensures forall k: nat | k < c :: Candidate(stem, k) in used
    decreases |used| + 1 - counter
  {
    Pigeonhole(stem, used, counter);
    if Candidate(stem, counter) !in used then counter else FirstFree(stem, used, counter + 1)
  }

  function QualifiedName(host: Host, server: string, tool: string, used: set<string>): (name: string)
    ensures name !in used
    ensures PlainName(host, server, tool) !in used ==> name == PlainName(host, server, tool)
  {
    if PlainName(host, server, tool) !in used then PlainName(host, server, tool)
    else Candidate(Stem(host, server, tool), FirstFree(Stem(host, server, tool), used, 0))
  }

  /** The renaming loop on its own. */
  method RenameUntilFree(stem: string, used: set<string>) returns (name: string)
    ensures name == Candidate(stem, FirstFree(stem, used, 0))
  {
    var counter: nat := 0;
    name := stem;
    while name in used
      invariant name == Candidate(stem, counter)
      invariant forall k: nat | k < counter :: Candidate(stem, k) in used
      invariant FirstFree(stem, used, counter) == FirstFree(stem, used, 0)
      decreases |used| + 1 - counter
    {
      Pigeonhole(stem, used, counter + 1);
      counter := counter + 1;
      name := stem + ("_" + Decimal(counter));
    }
  }

  method MakeQualifiedToolName(host: Host, server: string, tool: string, used: set<string>) returns (name: string)
    ensures name == QualifiedName(host, server, tool, used)
  {
    name := "mcp__" + server + "__" + Sanitize(host, tool);
    if name !in used {
      return;
    }
    name := RenameUntilFree(name + "__" + host.digest(server, tool), used);
  }

  // ---------- a discovery pass ----------

  datatype Tool = Tool(name: string, readOnly: bool)

  /** A configured server with the tools it lists. */
  datatype Server = Server(name: string, tools: seq<Tool>)

  datatype Found = Found(server: string, tool: Tool)

  datatype Spec = Spec(name: string, target: Found, requiresApproval: bool)

  function OfServer(server: string, tools: seq<Tool>): (r: seq<Found>)
    ensures |r| == |tools| && forall i | 0 <= i < |r| :: r[i] == Found(server, tools[i])
  {
    seq(|tools|, i requires 0 <= i < |tools| => Found(server, tools[i]))
  }

  /** All listed tools in the order of discovery. */
  function Listed(servers: seq<Server>): seq<Found> {
    if servers == [] then []
    else Listed(servers[..|servers| - 1]) + OfServer(servers[|servers| - 1].name, servers[|servers| - 1].tools)
  }

  function NamesIn(specs: seq<Spec>): set<string> {
    set i | 0 <= i < |specs| :: specs[i].name
  }

  function SpecOf(host: Host, f: Found, used: set<string>): Spec {
    Spec(QualifiedName(host, f.server, f.tool.name, used), f, !f.tool.readOnly)
  }

  function Discovered(host: Host, found: seq<Found>): seq<Spec> {
    if found == [] then []
    else
      var before := Discovered(host, found[..|found| - 1]);
      before + [SpecOf(host, found[|found| - 1], NamesIn(before))]
  }

  function Table(specs: seq<Spec>): map<string, Found> {
    if specs == [] then map[]
    else Table(specs[..|specs| - 1])[specs[|specs| - 1].name := specs[|specs| - 1].target]
  }

  predicate DistinctNames(specs: seq<Spec>) {
    forall i, j | 0 <= i < j < |specs| :: specs[i].name != specs[j].name
  }

  lemma DistinctMore(specs: seq<Spec>, s: Spec)
    requires DistinctNames(specs) && s.name !in NamesIn(specs)
    ensures DistinctNames(specs + [s])
  {
    forall i | 0 <= i < |specs| ensures specs[i].name != s.name {
      assert specs[i].name in NamesIn(specs);
    }
  }

  lemma SpecFresh(host: Host, f: Found, used: set<string>)
    ensures SpecOf(host, f, used).name !in used
  {
  }

  /** One specification per tool, in order, asking approval unless the tool is read-only. */
  predicate Answers(specs: seq<Spec>, found: seq<Found>) {
    |specs| == |found| &&
    forall i | 0 <= i < |found| :: specs[i].target == found[i] && specs[i].requiresApproval == !found[i].tool.readOnly
  }

  lemma AnswersMore(host: Host, specs: seq<Spec>, found: seq<Found>, f: Found)
    requires Answers(specs, found)
    ensures Answers(specs + [SpecOf(host, f, NamesIn(specs))], found + [f])
  {
  }

  lemma {:induction false} DiscoveredDistinct(host: Host, found: seq<Found>)
    ensures DistinctNames(Discovered(host, found))
    ensures Answers(Discovered(host, found), found)
  {
    if found != [] {
      var (front, last) := (found[..|found| - 1], found[|found| - 1]);
      assert found == front + [last];
      DiscoveredDistinct(host, front);
      var before := Discovered(host, front);
      SpecFresh(host, last, NamesIn(before));
      DistinctMore(before, SpecOf(host, last, NamesIn(before)));
      AnswersMore(host, before, front, last);
    }
  }

  /** A name is the plain one while that is free, and otherwise that with the digest and, from the
      second try on, a number: the first such name that is free. */
  lemma QualifiedExact(host: Host, server: string, tool: string, used: set<string>) returns (n: nat)
    ensures var name := QualifiedName(host, server, tool, used);
            var plain := "mcp__" + server + "__" + Sanitize(host, tool);
            var stem := plain + "__" + host.digest(server, tool);
            if plain !in used then name == plain
            else
              && name == (if n == 0 then stem else stem + ("_" + Decimal(n)))
              && (forall k: nat | k < n :: (if k == 0 then stem else stem + ("_" + Decimal(k))) in used)
  {
    n := 0;
    if PlainName(host, server, tool) in used {
      var stem := Stem(host, server, tool);
      n := FirstFree(stem, used, 0);
      forall k: nat | k < n ensures (if k == 0 then stem else stem + ("_" + Decimal(k))) in used {
        assert Candidate(stem, k) in used;
      }
    }
  }

  /** Discovery lists the tools server by server. */
  lemma {:induction false} ListedFront(first: Server, rest: seq<Server>)
    ensures Listed([first] + rest) == OfServer(first.name, first.tools) + Listed(rest)
  {
    if rest == [] {
      Unit([first]);
      assert [first][..0] == [] && Listed([]) == [];
      Unit(OfServer(first.name, first.tools));
    } else {
      var last := rest[|rest| - 1];
      ListedFront(first, rest[..|rest| - 1]);
      FrontOfConcat([first], rest);
      Assoc(OfServer(first.name, first.tools), Listed(rest[..|rest| - 1]), OfServer(last.name, last.tools));
    }
  }

  /** Every name begins with the prefix, its own server and the sanitized name of its own tool. */
  predicate Prefixed(host: Host, specs: seq<Spec>) {
    forall i | 0 <= i < |specs| ::
      "mcp__" + specs[i].target.server + "__" + Sanitize(host, specs[i].target.tool.name) <= specs[i].name
  }

  lemma {:induction false} DiscoveredPrefixed(host: Host, found: seq<Found>)
    ensures Prefixed(host, Discovered(host, found))
  {
    if found != [] {
      var (front, last) := (found[..|found| - 1], found[|found| - 1]);
      DiscoveredPrefixed(host, front);
      var used := NamesIn(Discovered(host, front));
      CandidateBegins(Stem(host, last.server, last.tool.name),
                      if PlainName(host, last.server, last.tool.name) in used then
                        FirstFree(Stem(host, last.server, last.tool.name), used, 0)
                      else 0);
    }
  }

  lemma CandidateBegins(stem: string, counter: nat)
    ensures stem <= Candidate(stem, counter)
  {
  }

  /** Each specification's name leads to its own tool. */
  predicate Entered(specs: seq<Spec>, table: map<string, Found>) {
    forall i | 0 <= i < |specs| :: specs[i].name in table && table[specs[i].name] == specs[i].target
  }

  lemma EnteredMore(specs: seq<Spec>, table: map<string, Found>, s: Spec)
    requires Entered(specs, table) && s.name !in NamesIn(specs)
    ensures Entered(specs + [s], table[s.name := s.target])
  {
    forall i | 0 <= i < |specs| ensures specs[i].name != s.name {
      assert specs[i].name in NamesIn(specs);
    }
  }

  lemma {:induction false} TableExact(specs: seq<Spec>)
    requires DistinctNames(specs)
    ensures Table(specs).Keys == NamesIn(specs) && |Table(specs)| == |specs|
    ensures Entered(specs, Table(specs))
  {
    if specs != [] {
      var (front, last) := (specs[..|specs| - 1], specs[|specs| - 1]);
      assert specs == front + [last];
      TableExact(front);
      assert last.name !in NamesIn(front);
      EnteredMore(front, Table(front), last);
      SpecsMore(front, last);
      TableSize(Table(front), last.name, last.target);
    }
  }

  lemma TableSize(table: map<string, Found>, name: string, f: Found)
    requires name !in table
    ensures table[name := f].Keys == table.Keys + {name} && |table[name := f]| == |table| + 1
  {
  }

  /** Every discovery pass, over any servers and tools and whatever names they have: the names
      are pairwise distinct, and each discovered tool has exactly one entry, its own. A tool
      that is not marked read-only requires approval. */
  lemma DiscoveryExact(host: Host, servers: seq<Server>)
    ensures var (found, specs) := (Listed(servers), Discovered(host, Listed(servers)));
            && DistinctNames(specs) && Answers(specs, found)
            && |Table(specs)| == |found| && Entered(specs, Table(specs))
  {
    DiscoveredDistinct(host, Listed(servers));
    TableExact(Discovered(host, Listed(servers)));
  }

  /** Renaming is needed: a separator inside a server's or a tool's name makes plain names of
      different servers equal. */
  lemma PlainNamesCollide(host: Host, server: string, x: string, y: string)
    requires Plain(host, y) && Plain(host, x + "__" + y)
    ensures PlainName(host, server, x + "__" + y) == PlainName(host, server + "__" + x, y)
  {
    SanitizePlain(host, x + "__" + y);
    SanitizePlain(host, y);
    Regroup("mcp__", server, "__", x, y);
  }

  lemma Regroup(lead: string, a: string, sep: string, x: string, y: string)
    ensures lead + a + sep + (x + sep + y) == lead + (a + sep + x) + sep + y
  {
  }

  lemma DiscoveredMore(host: Host, found: seq<Found>, f: Found)
    ensures Discovered(host, found + [f])
            == Discovered(host, found) + [SpecOf(host, f, NamesIn(Discovered(host, found)))]
  {
    assert (found + [f])[..|found|] == found;
  }

  lemma SpecsMore(specs: seq<Spec>, s: Spec)
    ensures NamesIn(specs + [s]) == NamesIn(specs) + {s.name}
    ensures Table(specs + [s]) == Table(specs)[s.name := s.target]
  {
    var all := specs + [s];
    assert all[..|specs|] == specs;
    assert all[|specs|].name in NamesIn(all);
    assert forall i | 0 <= i < |specs| :: all[i] == specs[i];
  }

  class McpToolProvider {
    const host: Host
    var tools: map<string, Found>

    constructor (host: Host)
      ensures this.host == host && tools == map[]
    {
      this.host, tools := host, map[];
    }

    method Register(found: Found, known: seq<Spec>, used: set<string>) returns (specs: seq<Spec>, names: set<string>)
      requires used == NamesIn(known) && tools == Table(known)
      modifies this
      ensures specs == known + [SpecOf(host, found, NamesIn(known))]
      ensures names == NamesIn(specs) && tools == Table(specs)
    {
      var qualified := MakeQualifiedToolName(host, found.server, found.tool.name, used);
      var spec := Spec(qualified, found, !found.tool.readOnly);
      names := used + {qualified};
      tools := tools[qualified := found];
      specs := known + [spec];
      SpecsMore(known, spec);
    }

    method RegisterServer(server: Server, ghost before: seq<Found>, known: seq<Spec>, used: set<string>)
      returns (specs: seq<Spec>, names: set<string>)
      requires known == Discovered(host, before) && used == NamesIn(known) && tools == Table(known)
      modifies this
      ensures specs == Discovered(host, before + OfServer(server.name, server.tools))
      ensures names == NamesIn(specs) && tools == Table(specs)
    {
      specs, names := known, used;
      ghost var here := OfServer(server.name, server.tools);
      assert before + here[..0] == before;
      for t := 0 to |server.tools|
        invariant specs == Discovered(host, before + here[..t])
        invariant names == NamesIn(specs) && tools == Table(specs)
      {
        DiscoveredStep(host, before, here, t);
        assert here[t] == Found(server.name, server.tools[t]);
        specs, names := Register(Found(server.name, server.tools[t]), specs, names);
      }
      assert here[..|here|] == here;
    }

    /** A pass forgets the previous one. */
    method BuildDynamicToolSpecs(servers: seq<Server>) returns (specs: seq<Spec>)
      modifies this
      ensures specs == Discovered(host, Listed(servers))
      ensures tools == Table(specs)
    {
      specs, tools := [], map[];
      var used: set<string> := {};
      for s := 0 to |servers|
        invariant specs == Discovered(host, Listed(servers[..s]))
        invariant tools == Table(specs) && used == NamesIn(specs)
      {
        assert servers[..s + 1][..s] == servers[..s];
        specs, used := RegisterServer(servers[s], Listed(servers[..s]), specs, used);
      }
      assert servers[..|servers|] == servers;
    }
  }

  lemma DiscoveredStep(host: Host, before: seq<Found>, here: seq<Found>, t: nat)
    requires t < |here|
    ensures var known := Discovered(host, before + here[..t]);
            Discovered(host, before + here[..t + 1]) == known + [SpecOf(host, here[t], NamesIn(known))]
  {
    assert before + here[..t + 1] == (before + here[..t]) + [here[t]];
    DiscoveredMore(host, before + here[..t], here[t]);
  }
}
