/** Capture of a backend's printed text, cut into stripped non-blank lines. */
module CapturedOutput {
  import opened Text

  datatype Capture = Capture(partial: string, lines: seq<string>)

  const EMPTY := Capture("", [])

  /** The stripped form of a line, kept only when something is left. */
  function Kept(lines: seq<string>): seq<string> {
    if lines == [] then []
    else Kept(lines[..|lines| - 1]) +
         (if Strip(lines[|lines| - 1]) != "" then [Strip(lines[|lines| - 1])] else [])
  }

  /** Complete lines of a text: all its newline-separated parts but the last. */
  function CompleteLines(text: string): seq<string> {
    var parts := Split(text, '\n');
    parts[..|parts| - 1]
  }

  /** The unfinished line at the end of a text. */
  function LastLine(text: string): string {
    var parts := Split(text, '\n');
    parts[|parts| - 1]
  }

  /** What a capture holds once `text` has been written to it. */
  function Written(c: Capture, text: string): Capture {
    Capture(LastLine(c.partial + text), c.lines + Kept(CompleteLines(c.partial + text)))
  }

  /** What `drain(final=True)` returns. */
  function FinalLines(c: Capture): seq<string> {
    c.lines + Kept([c.partial])
  }

  lemma {:induction false} KeptConcat(a: seq<string>, b: seq<string>)
    ensures Kept(a + b) == Kept(a) + Kept(b)
  {
    if b == [] {
      Unit(a);
      Unit(Kept(a));
    } else {
      var (front, last) := (b[..|b| - 1], b[|b| - 1]);
      KeptConcat(a, front);
      FrontOfConcat(a, b);
      Assoc(Kept(a), Kept(front), if Strip(last) != "" then [Strip(last)] else []);
    }
  }

  lemma LinesResume(a: string, b: string)
    ensures LastLine(a + b) == LastLine(LastLine(a) + b)
    ensures CompleteLines(a + b) == CompleteLines(a) + CompleteLines(LastLine(a) + b)
  {
    SplitResume(a, '\n', b);
    FrontOfConcat(CompleteLines(a), Split(LastLine(a) + b, '\n'));
  }

  /** Captured lines depend only on the text, not on how it was cut into writes. */
  lemma WritesMerge(c: Capture, a: string, b: string)
    ensures Written(Written(c, a), b) == Written(c, a + b)
  {
    var text := c.partial + a;
    LinesResume(text, b);
    Assoc(c.partial, a, b);
    KeptConcat(CompleteLines(text), CompleteLines(LastLine(text) + b));
    Assoc(c.lines, Kept(CompleteLines(text)), Kept(CompleteLines(LastLine(text) + b)));
  }

  /** Appending to the buffer and then settling is writing. */
  lemma AppendThenSettle(c: Capture, text: string)
    ensures Settled(c.(partial := c.partial + text)) == Written(c, text)
  {
    assert c.partial + text + "" == c.partial + text;
  }

  class CapturedOutput {
    var partial: string
    var lines: seq<string>

    function View(): Capture
      reads this
    {
      Capture(partial, lines)
    }

    constructor ()
      ensures View() == EMPTY
    {
      partial, lines := "", [];
    }

    /** `write`: cut off complete lines while the buffer holds a newline. */
    method Write(text: string) returns (n: nat)
      modifies this
      ensures View() == Written(old(View()), text)
      ensures n == |text|
    {
      AppendThenSettle(View(), text);
      partial := partial + text;
      while '\n' in partial
        invariant Settled(View()) == Written(old(View()), text)
        decreases |partial|
      {
        var i := IndexOf(partial, '\n');
        CutLine(View(), i);
        var cleaned := Strip(partial[..i]);
        partial := partial[i + 1..];
        if cleaned != "" {
          lines := lines + [cleaned];
        }
      }
      NothingToCut(View());
      n := |text|;
    }

    method Drain(final: bool) returns (drained: seq<string>)
      modifies this
      ensures drained == if final then FinalLines(old(View())) else old(lines)
      ensures View() == Capture(if final then "" else old(partial), [])
    {
      if final {
        var cleaned := Strip(partial);
        KeptOne(partial);
        if cleaned != "" {
          lines := lines + [cleaned];
        }
        partial := "";
      }
      drained := lines;
      lines := [];
    }
  }

  lemma KeptOne(line: string)
    ensures Kept([line]) == if Strip(line) != "" then [Strip(line)] else []
  {
    assert [line][..0] == [];
  }

  /** The capture that the write loop is heading for. */
  function Settled(c: Capture): Capture {
    Written(c, "")
  }

  lemma NothingToCut(c: Capture)
    requires '\n' !in c.partial
    ensures Settled(c) == c
  {
    assert c.partial + "" == c.partial;
    SplitPlain(c.partial, '\n');
    assert CompleteLines(c.partial) == [];
  }

  /** One turn of the loop moves its first line out of the buffer. */
  lemma CutLine(c: Capture, i: nat)
    requires i < |c.partial| && c.partial[i] == '\n' && '\n' !in c.partial[..i]
    ensures var cleaned := Strip(c.partial[..i]);
            Settled(Capture(c.partial[i + 1..], if cleaned != "" then c.lines + [cleaned] else c.lines)) == Settled(c)
  {
    var line, rest := c.partial[..i], c.partial[i + 1..];
    Unit(c.partial);
    Unit(rest);
    assert c.partial == line + "\n" + rest;
    SplitCons(line, '\n', rest);
    FrontOfConcat([line], Split(rest, '\n'));
    KeptConcat([line], CompleteLines(rest));
    KeptOne(line);
    Assoc(c.lines, Kept([line]), Kept(CompleteLines(rest)));
    Unit(c.lines);
  }
}
