/** Canonical agent paths (`/root/a/b`): validation, joining and reference resolution. */
module AgentPath {
  import opened Text

  datatype PathError =
    | EmptyName | ReservedName | SlashInName | BadCharacter
    | NotRooted | TrailingSlash | EmptyReference

  datatype Result<+T> = Ok(value: T) | Err(error: PathError)

  const ROOT := "/root"
  const ROOT_SEGMENT := "root"

  predicate IsNameChar(c: char) {
    'a' <= c <= 'z' || '0' <= c <= '9' || c == '_'
  }

  /** `validate_agent_name`; the result is the error raised, if any. */
  function ValidateName(name: string): Option<PathError> {
    if name == "" then Some(EmptyName)
    else if name == ROOT_SEGMENT || name == "." || name == ".." then Some(ReservedName)
    else if '/' in name then Some(SlashInName)
    else if exists i | 0 <= i < |name| :: !IsNameChar(name[i]) then Some(BadCharacter)
    else None
  }

  /** The segment loop shared by both validators: the first bad segment's error. */
  function FirstNameError(segments: seq<string>): Option<PathError> {
    if segments == [] then None
    else if ValidateName(segments[0]).Some? then ValidateName(segments[0])
    else FirstNameError(segments[1..])
  }

  predicate EndsWithSlash(s: string) {
    s != "" && s[|s| - 1] == '/'
  }

  function ValidateAbsolute(path: string): Option<PathError> {
    if path == "" || path[0] != '/' then Some(NotRooted)
    else
      var stripped := path[1..];
      var segments := Split(stripped, '/');
      if segments[0] != ROOT_SEGMENT then Some(NotRooted)
      else if EndsWithSlash(stripped) then Some(TrailingSlash)
      else FirstNameError(segments[1..])
  }

  function ValidateRelative(reference: string): Option<PathError> {
    if EndsWithSlash(reference) then Some(TrailingSlash)
    else FirstNameError(Split(reference, '/'))
  }

  /** `AgentPath.from_string`: a path object exists only for a valid string. */
  function FromString(path: string): Result<string> {
    match ValidateAbsolute(path)
    case Some(e) => Err(e)
    case None => Ok(path)
  }

  function JoinName(path: string, name: string): Result<string> {
    match ValidateName(name)
    case Some(e) => Err(e)
    case None => FromString(path + "/" + name)
  }

  function Resolve(path: string, reference: string): Result<string> {
    if reference == "" then Err(EmptyReference)
    else if reference == ROOT then Ok(ROOT)
    else if reference[0] == '/' then FromString(reference)
    else match ValidateRelative(reference)
      case Some(e) => Err(e)
      case None => FromString(path + "/" + reference)
  }

  /** `self.value.rsplit("/", maxsplit=1)[-1]`. */
  function AfterLastSlash(s: string): string {
    if '/' !in s then s else AfterLastSlash(s[1..])
  }

  function Name(path: string): string {
    if path == ROOT then ROOT_SEGMENT
    else
      var segment := AfterLastSlash(path);
      if segment == "" then ROOT_SEGMENT else segment
  }

  // ---------- the independent reading: a path is a list of segments ----------

  predicate ValidName(name: string) {
    && name != "" && name != ROOT_SEGMENT
    && forall i | 0 <= i < |name| :: IsNameChar(name[i])
  }

  predicate ValidNames(names: seq<string>) {
    forall i | 0 <= i < |names| :: ValidName(names[i])
  }

  /** The text of the path below the root through `names`. */
  function Print(names: seq<string>): string {
    if names == [] then ROOT else Print(names[..|names| - 1]) + "/" + names[|names| - 1]
  }

  function Parse(path: string): seq<string>
    requires ValidateAbsolute(path).None?
  {
    Split(path[1..], '/')[1..]
  }

  lemma ValidateNameExact(name: string)
    ensures ValidateName(name).None? <==> ValidName(name)
    ensures ValidName(name) ==> '/' !in name
  {
    if name == "." || name == ".." {
      assert !IsNameChar(name[0]);
    }
  }

  lemma {:induction false} FirstNameErrorExact(names: seq<string>)
    ensures FirstNameError(names).None? <==> ValidNames(names)
  {
    if names != [] {
      ValidateNameExact(names[0]);
      FirstNameErrorExact(names[1..]);
      if ValidNames(names) {
        assert forall i | 0 <= i < |names[1..]| :: names[1..][i] == names[i + 1];
      } else if ValidName(names[0]) {
        var i :| 0 <= i < |names| && !ValidName(names[i]);
        assert names[1..][i - 1] == names[i];
      }
    }
  }

  lemma ValidNamesSepFree(names: seq<string>)
    requires ValidNames(names)
    ensures SepFree(names, '/')
  {
    forall i | 0 <= i < |names| ensures '/' !in names[i] {
      ValidateNameExact(names[i]);
    }
  }

  lemma {:induction false} PrintIsJoin(names: seq<string>)
    ensures Print(names) == "/" + Join([ROOT_SEGMENT] + names, '/')
  {
    if names == [] {
      assert [ROOT_SEGMENT] + names == [ROOT_SEGMENT];
    } else {
      var front, last := names[..|names| - 1], names[|names| - 1];
      PrintIsJoin(front);
      JoinSnoc([ROOT_SEGMENT] + front, '/', last);
      Snoc(names);
      Assoc([ROOT_SEGMENT], front, [last]);
      Assoc("/", Join([ROOT_SEGMENT] + front, '/'), "/" + last);
      Assoc("/" + Join([ROOT_SEGMENT] + front, '/'), "/", last);
      Assoc(Join([ROOT_SEGMENT] + front, '/'), "/", last);
    }
  }

  /** A string ending in the separator splits into parts ending in the empty one. */
  lemma {:induction false} TrailingSlashPart(s: string)
    requires s != ""
    ensures EndsWithSlash(s) <==> (var p := Split(s, '/'); |p| > 1 && p[|p| - 1] == "")
  {
    if |s| == 1 {
      assert s[1..] == "";
    } else {
      TrailingSlashPart(s[1..]);
    }
  }

  /** Parsing undoes printing: every list of valid segments prints to a valid path. */
  lemma ParsePrint(names: seq<string>)
    requires ValidNames(names)
    ensures ValidateAbsolute(Print(names)).None?
    ensures Parse(Print(names)) == names
  {
    var path, parts := Print(names), [ROOT_SEGMENT] + names;
    PrintIsJoin(names);
    ValidNamesSepFree(names);
    assert path[1..] == Join(parts, '/');
    SplitJoin(parts, '/');
    assert parts[1..] == names;
    FirstNameErrorExact(names);
    TrailingSlashPart(path[1..]);
    assert names == [] || ValidName(names[|names| - 1]);
  }

  /** Printing undoes parsing: every valid path is the print of valid segments. */
  lemma PrintParse(path: string)
    requires ValidateAbsolute(path).None?
    ensures ValidNames(Parse(path))
    ensures Print(Parse(path)) == path
  {
    var parts := Split(path[1..], '/');
    FirstNameErrorExact(parts[1..]);
    SplitParts(path[1..], '/');
    PrintIsJoin(parts[1..]);
    assert [ROOT_SEGMENT] + parts[1..] == parts;
    assert path == "/" + path[1..];
  }

  /** Path strings are exactly the printed forms of lists of valid segments. */
  lemma ValidExactlyPrinted(path: string)
    ensures ValidateAbsolute(path).None? <==> exists names :: ValidNames(names) && Print(names) == path
  {
    if ValidateAbsolute(path).None? {
      PrintParse(path);
    }
    forall names | ValidNames(names) && Print(names) == path ensures ValidateAbsolute(path).None? {
      ParsePrint(names);
    }
  }

  /** Joining a name to a path appends one segment, and fails exactly on an invalid name. */
  lemma JoinAppends(path: string, name: string)
    requires ValidateAbsolute(path).None?
    ensures JoinName(path, name).Ok? <==> ValidName(name)
    ensures ValidName(name) ==>
              && JoinName(path, name).value == path + "/" + name
              && Parse(JoinName(path, name).value) == Parse(path) + [name]
  {
    ValidateNameExact(name);
    if ValidName(name) {
      var names := Parse(path);
      PrintParse(path);
      ParsePrint(names + [name]);
      assert (names + [name])[..|names|] == names;
    }
  }

  lemma JoinInjective(p: string, a: string, q: string, b: string)
    requires ValidateAbsolute(p).None? && ValidateAbsolute(q).None?
    requires JoinName(p, a).Ok? && JoinName(p, a) == JoinName(q, b)
    ensures p == q && a == b
  {
    JoinAppends(p, a);
    JoinAppends(q, b);
    var s, t := Parse(p), Parse(q);
    assert (s + [a])[..|s|] == s && (t + [b])[..|t|] == t;
    assert (s + [a])[|s|] == a && (t + [b])[|t|] == b;
    PrintParse(p);
    PrintParse(q);
  }

  /** `name()` is the last joined segment, and is `root` for the root path alone. */
  lemma NameIsLastSegment(path: string)
    requires ValidateAbsolute(path).None?
    ensures var names := Parse(path);
            Name(path) == if names == [] then ROOT_SEGMENT else names[|names| - 1]
    ensures Name(path) == ROOT_SEGMENT <==> path == ROOT
  {
    var names := Parse(path);
    PrintParse(path);
    if names != [] {
      var front, last := Print(names[..|names| - 1]), names[|names| - 1];
      assert ValidName(last);
      ValidateNameExact(last);
      AfterLastSlashOf(front, last);
      assert path == front + "/" + last;
      ParsePrint([]);
      assert Print([]) == ROOT;
    }
  }

  lemma {:induction false} AfterLastSlashOf(front: string, last: string)
    requires '/' !in last
    ensures AfterLastSlash(front + "/" + last) == last
  {
    var s := front + "/" + last;
    assert s[|front|] == '/';
    if front == "" {
      assert s[1..] == last;
    } else {
      AfterLastSlashOf(front[1..], last);
      assert s[1..] == front[1..] + "/" + last;
    }
  }

  // ---------- resolving references ----------

  /** Joining the segments of a reference one by one, stopping at the first failure. */
  function JoinEach(path: Result<string>, names: seq<string>): Result<string>
    decreases names
  {
    if path.Err? || names == [] then path
    else JoinEach(JoinName(path.value, names[0]), names[1..])
  }

  lemma {:induction false} JoinEachExact(path: string, names: seq<string>)
    requires ValidateAbsolute(path).None?
    ensures JoinEach(Ok(path), names).Ok? <==> ValidNames(names)
    ensures ValidNames(names) ==>
              JoinEach(Ok(path), names) == Ok(Print(Parse(path) + names))
    decreases names
  {
    if names == [] {
      PrintParse(path);
      assert Parse(path) + names == Parse(path);
    } else {
      JoinAppends(path, names[0]);
      if ValidName(names[0]) {
        var next := JoinName(path, names[0]).value;
        JoinEachExact(next, names[1..]);
        assert Parse(path) + names == Parse(path) + [names[0]] + names[1..];
        assert ValidNames(names) <==> ValidNames(names[1..]) by {
          FirstNameErrorExact(names);
          FirstNameErrorExact(names[1..]);
          ValidateNameExact(names[0]);
        }
      } else {
        assert JoinEach(JoinName(path, names[0]), names[1..]).Err?;
      }
    }
  }

  /** Resolving a relative reference is joining its segments one at a time. */
  lemma ResolveRelative(path: string, reference: string)
    requires ValidateAbsolute(path).None?
    requires reference != "" && reference[0] != '/'
    ensures var stepwise := JoinEach(Ok(path), Split(reference, '/'));
            && (Resolve(path, reference).Ok? <==> stepwise.Ok?)
            && (stepwise.Ok? ==> Resolve(path, reference) == stepwise)
  {
    var parts, names := Split(reference, '/'), Parse(path);
    JoinEachExact(path, parts);
    FirstNameErrorExact(parts);
    TrailingSlashPart(reference);
    if ValidNames(parts) {
      PrintParse(path);
      ParsePrint(names + parts);
      SplitParts(reference, '/');
      PrintConcat(names, parts);
    }
  }

  lemma {:induction false} PrintConcat(names: seq<string>, parts: seq<string>)
    requires parts != []
    ensures Print(names + parts) == Print(names) + "/" + Join(parts, '/')
  {
    var all := names + parts;
    var front, last := parts[..|parts| - 1], parts[|parts| - 1];
    assert all[..|all| - 1] == names + front;
    if front == [] {
      assert names + front == names;
    } else {
      PrintConcat(names, front);
      JoinSnoc(front, '/', last);
      assert parts == front + [last];
      assert (Print(names) + "/" + Join(front, '/')) + "/" + last
          == Print(names) + "/" + (Join(front, '/') + "/" + last);
    }
  }

  /** An absolute reference resolves the same from everywhere, to itself if it is valid. */
  lemma ResolveAbsolute(path: string, other: string, reference: string)
    requires reference != "" && reference[0] == '/'
    ensures Resolve(path, reference) == Resolve(other, reference)
    ensures Resolve(path, reference).Ok? <==> exists names :: ValidNames(names) && Print(names) == reference
    ensures Resolve(path, reference).Ok? ==> Resolve(path, reference).value == reference
  {
    ValidExactlyPrinted(reference);
    if reference == ROOT {
      assert ValidNames([]) && Print([]) == ROOT;
    }
  }
}
