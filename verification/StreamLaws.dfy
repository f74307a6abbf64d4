/** What a stream holds, told from the backend's actions alone: what goes out for each chunk, which
    chunks end it, and which lines of printed text it carries. */
module StreamLaws {
  import opened Text
  import opened CapturedOutput
  import opened StreamBridge

  // ---------- a stream, action by action ----------

  /** The state of the normalizer after some actions: a done chunk flushes it, others are fed. */
  function Held<N>(z: Normalizer<N>, actions: seq<Action>): N {
    if actions == [] then z.start
    else
      var (before, last) := (Held(z, actions[..|actions| - 1]), actions[|actions| - 1]);
      if last.Print? then before
      else if last.chunk.kind.Done? then z.flush(before).0 else z.feed(before, last.chunk).0
  }

  /** The captured text that has not gone out yet. */
  function Waiting(actions: seq<Action>): Capture {
    if actions == [] then EMPTY
    else
      var (before, last) := (Waiting(actions[..|actions| - 1]), actions[|actions| - 1]);
      if last.Print? then Written(before, last.text) else before.(lines := [])
  }

  /** What one more action sends: for a chunk, first the captured lines; then, for a done chunk, what
      the normalizer holds back and the chunk, and for another what the normalizer makes of it. */
  function SentFor<N>(z: Normalizer<N>, before: seq<Action>, last: Action): seq<Chunk> {
    if last.Print? then []
    else
      Notices(Waiting(before).lines)
      + if last.chunk.kind.Done? then z.flush(Held(z, before)).1 + [last.chunk]
        else z.feed(Held(z, before), last.chunk).1
  }

  function Sent<N>(z: Normalizer<N>, actions: seq<Action>): seq<Chunk> {
    if actions == [] then []
    else
      var (front, last) := (actions[..|actions| - 1], actions[|actions| - 1]);
      Sent(z, front) + SentFor(z, front, last)
  }

  /** The backend's own done chunks. */
  function OwnDones(actions: seq<Action>): seq<Chunk> {
    if actions == [] then []
    else
      var last := actions[|actions| - 1];
      OwnDones(actions[..|actions| - 1])
      + if last.Yield? && last.chunk.kind.Done? then [last.chunk] else []
  }

  /** What follows the last action, when the backend raises nothing: the rest of the captured text,
      what the normalizer holds back, and a done chunk if there has been none. */
  function Last<N>(z: Normalizer<N>, actions: seq<Action>): seq<Chunk> {
    Notices(FinalLines(Waiting(actions)))
    + (z.flush(Held(z, actions)).1 + if OwnDones(actions) == [] then [SYNTHETIC_DONE] else [])
  }

  lemma {:induction false} StreamFrom<N>(z: Normalizer<N>, b: Backend, i: nat)
    requires i <= |b.actions|
    ensures var done := b.actions[..i];
            SyncStream(z, b, EMPTY, z.start, false)
            == Then(Sent(z, done), SyncStream(z, b.(actions := b.actions[i..]), Waiting(done), Held(z, done),
                                              OwnDones(done) != []))
  {
    if i == 0 {
      assert b.actions[0..] == b.actions && b.actions[..0] == [];
      Unit(SyncStream(z, b, EMPTY, z.start, false).chunks);
    } else {
      var (before, done) := (b.actions[..i - 1], b.actions[..i]);
      assert done[..i - 1] == before;
      StreamFrom(z, b, i - 1);
      SyncTurn(z, b, i - 1, Waiting(before), Held(z, before), OwnDones(before) != [], Sent(z, before));
      Unit(Sent(z, before));
    }
  }

  /** The whole stream, for every backend and normalizer. */
  lemma StreamExact<N>(z: Normalizer<N>, b: Backend)
    ensures SyncStream(z, b, EMPTY, z.start, false)
            == Outcome(Sent(z, b.actions) + if b.failure.Some? then [] else Last(z, b.actions), b.failure)
  {
    StreamFrom(z, b, |b.actions|);
    assert b.actions[..|b.actions|] == b.actions && b.actions[|b.actions|..] == [];
  }

  // ---------- done chunks ----------

  function Dones(chunks: seq<Chunk>): seq<Chunk> {
    if chunks == [] then []
    else Dones(chunks[..|chunks| - 1]) +
         (if chunks[|chunks| - 1].kind.Done? then [chunks[|chunks| - 1]] else [])
  }

  lemma {:induction false} DonesConcat(a: seq<Chunk>, b: seq<Chunk>)
    ensures Dones(a + b) == Dones(a) + Dones(b)
  {
    if b == [] {
      Unit(a);
      Unit(Dones(a));
    } else {
      var last := b[|b| - 1];
      DonesConcat(a, b[..|b| - 1]);
      FrontOfConcat(a, b);
      Assoc(Dones(a), Dones(b[..|b| - 1]), if last.kind.Done? then [last] else []);
    }
  }

  predicate NoDone(chunks: seq<Chunk>) {
    forall i | 0 <= i < |chunks| :: !chunks[i].kind.Done?
  }

  lemma {:induction false} NoDoneNone(chunks: seq<Chunk>)
    requires NoDone(chunks)
    ensures Dones(chunks) == []
  {
    if chunks != [] {
      NoDoneNone(chunks[..|chunks| - 1]);
    }
  }

  lemma DonesOne(chunk: Chunk)
    ensures Dones([chunk]) == if chunk.kind.Done? then [chunk] else []
  {
    assert [chunk][..0] == [];
  }

  /** A normalizer that makes no done chunks of its own. */
  ghost predicate EndsNothing<N(!new)>(z: Normalizer<N>) {
    && (forall n: N, chunk: Chunk :: !chunk.kind.Done? ==> NoDone(z.feed(n, chunk).1))
    && (forall n: N :: NoDone(z.flush(n).1))
  }

  lemma SentForDones<N(!new)>(z: Normalizer<N>, before: seq<Action>, last: Action)
    requires EndsNothing(z)
    ensures Dones(SentFor(z, before, last)) == if last.Yield? && last.chunk.kind.Done? then [last.chunk] else []
  {
    if last.Yield? {
      var (notices, n) := (Notices(Waiting(before).lines), Held(z, before));
      NoDoneNone(notices);
      if last.chunk.kind.Done? {
        NoDoneNone(z.flush(n).1);
        DonesConcat(z.flush(n).1, [last.chunk]);
        DonesOne(last.chunk);
        DonesConcat(notices, z.flush(n).1 + [last.chunk]);
      } else {
        NoDoneNone(z.feed(n, last.chunk).1);
        DonesConcat(notices, z.feed(n, last.chunk).1);
      }
    }
  }

  lemma {:induction false} SentDones<N(!new)>(z: Normalizer<N>, actions: seq<Action>)
    requires EndsNothing(z)
    ensures Dones(Sent(z, actions)) == OwnDones(actions)
  {
    if actions != [] {
      var (front, last) := (actions[..|actions| - 1], actions[|actions| - 1]);
      SentDones(z, front);
      SentForDones(z, front, last);
      DonesConcat(Sent(z, front), SentFor(z, front, last));
    }
  }

  lemma LastDones<N(!new)>(z: Normalizer<N>, actions: seq<Action>)
    requires EndsNothing(z)
    ensures Dones(Last(z, actions)) == if OwnDones(actions) == [] then [SYNTHETIC_DONE] else []
    ensures var last := Last(z, actions);
            OwnDones(actions) == [] ==> last != [] && last[|last| - 1] == SYNTHETIC_DONE
  {
    var (notices, held) := (Notices(FinalLines(Waiting(actions))), z.flush(Held(z, actions)).1);
    var end := if OwnDones(actions) == [] then [SYNTHETIC_DONE] else [];
    NoDoneNone(notices);
    NoDoneNone(held);
    DonesOne(SYNTHETIC_DONE);
    DonesConcat(held, end);
    DonesConcat(notices, held + end);
  }

  /** A stream has exactly the backend's done chunks, in order; if there are none and the backend
      raises nothing, exactly one, the synthetic one, and it is the last chunk. */
  lemma DonesExact<N(!new)>(z: Normalizer<N>, b: Backend)
    requires EndsNothing(z)
    ensures var chunks := SyncStream(z, b, EMPTY, z.start, false).chunks;
            if OwnDones(b.actions) != [] || b.failure.Some? then Dones(chunks) == OwnDones(b.actions)
            else Dones(chunks) == [SYNTHETIC_DONE] && chunks[|chunks| - 1] == SYNTHETIC_DONE
  {
    StreamExact(z, b);
    SentDones(z, b.actions);
    LastDones(z, b.actions);
    DonesConcat(Sent(z, b.actions), Last(z, b.actions));
    Unit(Sent(z, b.actions));
  }

  // ---------- printed text ----------

  /** Everything that the backend prints. */
  function Printed(actions: seq<Action>): string {
    if actions == [] then ""
    else
      var last := actions[|actions| - 1];
      Printed(actions[..|actions| - 1]) + if last.Print? then last.text else ""
  }

  /** The texts of the notifications. */
  function Noted(chunks: seq<Chunk>): seq<string> {
    if chunks == [] then []
    else Noted(chunks[..|chunks| - 1]) +
         (if chunks[|chunks| - 1].kind.Notification? then [chunks[|chunks| - 1].text] else [])
  }

  lemma {:induction false} NotedConcat(a: seq<Chunk>, b: seq<Chunk>)
    ensures Noted(a + b) == Noted(a) + Noted(b)
  {
    if b == [] {
      Unit(a);
      Unit(Noted(a));
    } else {
      var last := b[|b| - 1];
      NotedConcat(a, b[..|b| - 1]);
      FrontOfConcat(a, b);
      Assoc(Noted(a), Noted(b[..|b| - 1]), if last.kind.Notification? then [last.text] else []);
    }
  }

  predicate NoNote(chunks: seq<Chunk>) {
    forall i | 0 <= i < |chunks| :: !chunks[i].kind.Notification?
  }

  lemma {:induction false} NoNoteNone(chunks: seq<Chunk>)
    requires NoNote(chunks)
    ensures Noted(chunks) == []
  {
    if chunks != [] {
      NoNoteNone(chunks[..|chunks| - 1]);
    }
  }

  lemma {:induction false} NoticesNoted(lines: seq<string>)
    ensures Noted(Notices(lines)) == lines
  {
    if lines != [] {
      var n := |lines| - 1;
      NoticesNoted(lines[..n]);
      assert Notices(lines)[..n] == Notices(lines[..n]) && Notices(lines)[n] == Notice(lines[n]);
      Snoc(lines);
    }
  }

  /** Neither backend nor normalizer makes notifications. */
  ghost predicate NotesNothing<N(!new)>(z: Normalizer<N>, actions: seq<Action>) {
    && (forall n: N, chunk: Chunk :: NoNote(z.feed(n, chunk).1))
    && (forall n: N :: NoNote(z.flush(n).1))
    && (forall i | 0 <= i < |actions| && actions[i].Yield? :: !actions[i].chunk.kind.Notification?)
  }

  lemma SentForNoted<N(!new)>(z: Normalizer<N>, before: seq<Action>, last: Action)
    requires NotesNothing(z, before + [last])
    ensures Noted(SentFor(z, before, last)) == if last.Yield? then Waiting(before).lines else []
  {
    if last.Yield? {
      assert (before + [last])[|before|] == last;
      var (notices, n) := (Notices(Waiting(before).lines), Held(z, before));
      var rest := if last.chunk.kind.Done? then z.flush(n).1 + [last.chunk] else z.feed(n, last.chunk).1;
      assert NoNote(z.flush(n).1) && NoNote(z.feed(n, last.chunk).1);
      NoticesNoted(Waiting(before).lines);
      NoNoteNone(rest);
      NotedConcat(notices, rest);
      Unit(Waiting(before).lines);
    }
  }

  /** What has gone out and what waits are together the kept lines of the text so far. */
  lemma {:induction false} LinesConserved<N(!new)>(z: Normalizer<N>, actions: seq<Action>)
    requires NotesNothing(z, actions)
    ensures Noted(Sent(z, actions)) + Waiting(actions).lines == Kept(CompleteLines(Printed(actions)))
    ensures Waiting(actions).partial == LastLine(Printed(actions))
  {
    if actions == [] {
      assert Kept([]) == [];
    } else {
      var (front, last) := (actions[..|actions| - 1], actions[|actions| - 1]);
      Snoc(actions);
      LinesConserved(z, front);
      SentForNoted(z, front, last);
      NotedConcat(Sent(z, front), SentFor(z, front, last));
      Unit(Noted(Sent(z, front)));
      Unit(Printed(front));
      if last.Print? {
        LinesResume(Printed(front), last.text);
        KeptConcat(CompleteLines(Printed(front)), CompleteLines(LastLine(Printed(front)) + last.text));
        Assoc(Noted(Sent(z, front)), Waiting(front).lines,
              Kept(CompleteLines(LastLine(Printed(front)) + last.text)));
      } else {
        Unit(Noted(Sent(z, front)) + Waiting(front).lines);
      }
    }
  }

  /** A stream without failure notifies of every printed line, stripped, blank ones left out, in
      order and once each, wherever the chunks cut the text. */
  lemma PrintsDelivered<N(!new)>(z: Normalizer<N>, b: Backend)
    requires NotesNothing(z, b.actions) && b.failure.None?
    ensures Noted(SyncStream(z, b, EMPTY, z.start, false).chunks) == Kept(Split(Printed(b.actions), '\n'))
  {
    var (sent, rest) := (Sent(z, b.actions), Last(z, b.actions));
    StreamExact(z, b);
    LinesConserved(z, b.actions);
    NotedConcat(sent, rest);
    LastNoted(z, b.actions);
    var c := Waiting(b.actions);
    Assoc(Noted(sent), c.lines, Kept([c.partial]));
    KeptConcat(CompleteLines(Printed(b.actions)), [c.partial]);
    Snoc(Split(Printed(b.actions), '\n'));
  }

  lemma LastNoted<N(!new)>(z: Normalizer<N>, actions: seq<Action>)
    requires NotesNothing(z, actions)
    ensures Noted(Last(z, actions)) == FinalLines(Waiting(actions))
  {
    var (lines, held) := (FinalLines(Waiting(actions)), z.flush(Held(z, actions)).1);
    var rest := held + if OwnDones(actions) == [] then [SYNTHETIC_DONE] else [];
    assert NoNote(held);
    NoticesNoted(lines);
    NoNoteNone(rest);
    NotedConcat(Notices(lines), rest);
    Unit(lines);
  }
}
