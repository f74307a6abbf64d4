/** The texts that a stream of an OpenAI-compatible provider carries, and how it ends, read off its
    lines. */
module OpenAiTexts {
  import opened Text
  import opened OpenAiStream

  // ---------- texts ----------

  /** Content first, if there is any, then each piece of reasoning, then a refusal. */
  lemma LeadExact(line: Line) returns (thoughts: seq<Chunk>)
    requires line.Choice?
    ensures |thoughts| == |line.reasoning|
    ensures forall i | 0 <= i < |thoughts| :: thoughts[i] == Reasoning(line.reasoning[i])
    ensures Lead(line) == (if line.content == "" then [] else [Final(line.content)]) + thoughts
                          + (if line.refusal == "" then [] else [Refusal(line.refusal)])
  {
    thoughts := Thoughts(line.reasoning);
  }

  predicate Carries(chunk: Chunk) {
    chunk.Final? || chunk.Reasoning? || chunk.Refusal?
  }

  /** The chunks that carry the model's text. */
  function Texts(chunks: seq<Chunk>): seq<Chunk> {
    if chunks == [] then []
    else Texts(chunks[..|chunks| - 1]) + (if Carries(chunks[|chunks| - 1]) then [chunks[|chunks| - 1]] else [])
  }

  function Leads(lines: seq<Line>): seq<Chunk> {
    if lines == [] then [] else (if lines[0].Choice? then Lead(lines[0]) else []) + Leads(lines[1..])
  }

  lemma {:induction false} TextsConcat(a: seq<Chunk>, b: seq<Chunk>)
    ensures Texts(a + b) == Texts(a) + Texts(b)
  {
    if b == [] {
      Unit(a);
      Unit(Texts(a));
    } else {
      var last := b[|b| - 1];
      TextsConcat(a, b[..|b| - 1]);
      FrontOfConcat(a, b);
      Assoc(Texts(a), Texts(b[..|b| - 1]), if Carries(last) then [last] else []);
    }
  }

  lemma {:induction false} TextsAll(chunks: seq<Chunk>)
    requires forall i | 0 <= i < |chunks| :: Carries(chunks[i])
    ensures Texts(chunks) == chunks
  {
    if chunks != [] {
      TextsAll(chunks[..|chunks| - 1]);
      Snoc(chunks);
    }
  }

  lemma {:induction false} TextsNone(chunks: seq<Chunk>)
    requires forall i | 0 <= i < |chunks| :: !Carries(chunks[i])
    ensures Texts(chunks) == []
  {
    if chunks != [] {
      TextsNone(chunks[..|chunks| - 1]);
    }
  }

  lemma LeadCarries(line: Line)
    ensures forall i | 0 <= i < |Lead(line)| :: Carries(Lead(line)[i])
  {
  }

  lemma ShownTexts(acc: Acc, line: Line)
    ensures Texts(Shown(acc, line)) == if line.Choice? then Lead(line) else []
  {
    LeadCarries(line);
    TextsAll(Lead(line));
    TextsNone(Announce(Notes(acc, DeltasOf(line))));
    TextsConcat(Lead(line), Announce(Notes(acc, DeltasOf(line))));
    Unit(Lead(line));
  }

  lemma {:induction false} AllShownTexts(acc: Acc, lines: seq<Line>)
    ensures Texts(AllShown(acc, lines)) == Leads(lines)
    decreases lines
  {
    if lines != [] {
      var next := Ingest(acc, DeltasOf(lines[0]));
      ShownTexts(acc, lines[0]);
      AllShownTexts(next, lines[1..]);
      TextsConcat(Shown(acc, lines[0]), AllShown(next, lines[1..]));
    }
  }

  lemma TailTexts(acc: Acc, end: End)
    ensures Texts(Tail(acc, end)) == []
  {
    var tail := Tail(acc, end);
    assert forall i | 0 <= i < |tail| :: !Carries(tail[i]);
    TextsNone(tail);
  }

  /** Every stream carries exactly the texts of the lines it reads, line by line. */
  lemma TextsDelivered(lines: seq<Line>, ending: Ending)
    ensures Texts(Stream(EMPTY, lines, ending)) == Leads(Read(lines))
  {
    StreamShape(EMPTY, lines, ending);
    var acc := Ingest(EMPTY, AllDeltas(Read(lines)));
    TextsConcat(AllShown(EMPTY, Read(lines)), Tail(acc, EndOf(lines, ending)));
    AllShownTexts(EMPTY, Read(lines));
    TailTexts(acc, EndOf(lines, ending));
    Unit(Leads(Read(lines)));
  }

  // ---------- the end ----------

  /** A line after which nothing is read. */
  predicate Ends(line: Line) {
    match line
    case Ignored => false
    case DoneMark => true
    case Failure(_) => true
    case Choice(_, _, _, _, finish) => finish != ""
  }

  /** The last chunks of a stream that a line has ended. */
  predicate EndsLike(out: seq<Chunk>, line: Line) {
    && out != []
    && match line
       case Ignored => false
       case DoneMark => out[|out| - 1] == Done("")
       case Failure(text) => BreaksOff(out, text)
       case Choice(_, _, _, _, finish) => out[|out| - 1] == Done(finish)
  }

  predicate BreaksOff(out: seq<Chunk>, text: string) {
    |out| >= 2 && out[|out| - 2] == Error(text) && out[|out| - 1] == Done("error")
  }

  lemma {:induction false} EndOfExact(lines: seq<Line>, ending: Ending, i: nat)
    requires i <= |lines| && (forall j | 0 <= j < i :: !Ends(lines[j])) && (i < |lines| ==> Ends(lines[i]))
    ensures EndOf(lines, ending)
            == if i == |lines| then (if ending.Broken? then Fault(ending.text) else Cut)
               else if lines[i].DoneMark? then Finish("")
               else if lines[i].Failure? then Fault(lines[i].text)
               else Finish(lines[i].finish)
  {
    if i > 0 {
      assert forall j | 0 <= j < i - 1 :: lines[1..][j] == lines[j + 1];
      EndOfExact(lines[1..], ending, i - 1);
    }
  }

  /** A stream ends as its first ending line says or, when there is none, as the response ends. */
  lemma EndExact(lines: seq<Line>, ending: Ending, i: nat)
    requires i <= |lines| && (forall j | 0 <= j < i :: !Ends(lines[j])) && (i < |lines| ==> Ends(lines[i]))
    ensures var out := Stream(EMPTY, lines, ending);
            if i < |lines| then EndsLike(out, lines[i])
            else if ending.Broken? then BreaksOff(out, ending.text)
            else NoDone(out)
  {
    StreamShape(EMPTY, lines, ending);
    EndOfExact(lines, ending, i);
    LastOf(AllShown(EMPTY, Read(lines)), Ingest(EMPTY, AllDeltas(Read(lines))), EndOf(lines, ending));
    NothingEnds(lines, ending);
  }

  lemma NothingEnds(lines: seq<Line>, ending: Ending)
    ensures EndOf(lines, ending).Cut? ==> NoDone(Stream(EMPTY, lines, ending))
  {
    StreamShape(EMPTY, lines, ending);
    QuietNoDone(AllShown(EMPTY, Read(lines)));
    Unit(AllShown(EMPTY, Read(lines)));
  }

  lemma QuietNoDone(chunks: seq<Chunk>)
    requires Quiet(chunks)
    ensures NoDone(chunks)
  {
  }

  lemma LastOf(shown: seq<Chunk>, acc: Acc, end: End)
    ensures var out := shown + Tail(acc, end);
            match end
            case Finish(reason) => out != [] && out[|out| - 1] == Done(reason)
            case Fault(text) => BreaksOff(out, text)
            case Cut => true
  {
  }
}
