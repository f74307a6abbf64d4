/** Streaming from a local backend: the synchronous generator and the bridge that runs the
    backend on a worker thread and carries its chunks over a bounded queue. */
module StreamBridge {
  import opened Text
  import opened CapturedOutput

  datatype Kind = FinalText | Reasoning | ToolCall | Notification | Error | Done

  datatype Chunk = Chunk(text: string, kind: Kind, primary: bool, payload: string)

  function Notice(line: string): Chunk {
    Chunk(line, Notification, true, "")
  }

  const SYNTHETIC_DONE := Chunk("", Done, true, "")

  /** The normalizer, as an arbitrary state machine over its buffered markup. */
  datatype Normalizer<!N> = Normalizer(start: N, feed: (N, Chunk) -> (N, seq<Chunk>), flush: N -> (N, seq<Chunk>))

  /** One backend generation: what it prints and yields, and the exception it ends with, if any. */
  datatype Action = Print(text: string) | Yield(chunk: Chunk)
  datatype Backend = Backend(actions: seq<Action>, failure: Option<string>)

  /** What a consumer of a stream sees: its chunks and the exception raised at the end, if any. */
  datatype Outcome = Outcome(chunks: seq<Chunk>, failure: Option<string>)

  function Then(chunks: seq<Chunk>, rest: Outcome): Outcome {
    Outcome(chunks + rest.chunks, rest.failure)
  }

  function Notices(lines: seq<string>): seq<Chunk> {
    seq(|lines|, i requires 0 <= i < |lines| => Notice(lines[i]))
  }

  // ---------- the synchronous stream ----------

  /** Chunks sent downstream for one raw chunk, with the normalizer's next state. */
  function Normalized<N>(z: Normalizer<N>, n: N, chunk: Chunk): (N, seq<Chunk>) {
    if chunk.kind.Done? then (z.flush(n).0, z.flush(n).1 + [chunk]) else z.feed(n, chunk)
  }

  function Ending<N>(z: Normalizer<N>, n: N, sawDone: bool): seq<Chunk> {
    z.flush(n).1 + if sawDone then [] else [SYNTHETIC_DONE]
  }

  /** `stream_generate` from some point on. */
  function SyncStream<N>(z: Normalizer<N>, b: Backend, c: Capture, n: N, sawDone: bool): Outcome
    decreases |b.actions|
  {
    if b.actions == [] then
      if b.failure.Some? then Outcome([], b.failure)
      else Outcome(Notices(FinalLines(c)) + Ending(z, n, sawDone), None)
    else
      var rest := b.(actions := b.actions[1..]);
      match b.actions[0]
      case Print(text) => SyncStream(z, rest, Written(c, text), n, sawDone)
      case Yield(chunk) =>
        var (m, parts) := Normalized(z, n, chunk);
        Then(Notices(c.lines) + parts, SyncStream(z, rest, c.(lines := []), m, sawDone || chunk.kind.Done?))
  }

  /** What the generator has yielded and what is still to come are unchanged by one action. */
  lemma SyncTurn<N>(z: Normalizer<N>, b: Backend, i: nat, c: Capture, n: N, sawDone: bool, chunks: seq<Chunk>)
    requires i < |b.actions|
    ensures var (now, next) := (b.(actions := b.actions[i..]), b.(actions := b.actions[i + 1..]));
            match b.actions[i]
            case Print(text) => SyncStream(z, now, c, n, sawDone) == SyncStream(z, next, Written(c, text), n, sawDone)
            case Yield(chunk) =>
              var (m, parts) := Normalized(z, n, chunk);
              Then(chunks, SyncStream(z, now, c, n, sawDone))
              == Then(chunks + (Notices(c.lines) + parts),
                      SyncStream(z, next, c.(lines := []), m, sawDone || chunk.kind.Done?))
  {
    assert b.actions[i..][1..] == b.actions[i + 1..];
    if b.actions[i].Yield? {
      var (m, parts) := Normalized(z, n, b.actions[i].chunk);
      var rest := SyncStream(z, b.(actions := b.actions[i + 1..]), c.(lines := []), m,
                             sawDone || b.actions[i].chunk.kind.Done?);
      Assoc(chunks, Notices(c.lines) + parts, rest.chunks);
    }
  }

  /** The generator itself; the chunks of a finite run are collected in order. */
  method StreamGenerate<N>(z: Normalizer<N>, b: Backend) returns (out: Outcome)
    ensures out == SyncStream(z, b, EMPTY, z.start, false)
  {
    var capture := new CapturedOutput();
    var n, sawDone, chunks := z.start, false, [];
    assert b.actions[0..] == b.actions;
    Unit(SyncStream(z, b, EMPTY, z.start, false).chunks);
    for i := 0 to |b.actions|
      invariant Then(chunks, SyncStream(z, b.(actions := b.actions[i..]), capture.View(), n, sawDone))
             == SyncStream(z, b, EMPTY, z.start, false)
      invariant fresh(capture)
    {
      SyncTurn(z, b, i, capture.View(), n, sawDone, chunks);
      match b.actions[i] {
        case Print(text) =>
          var _ := capture.Write(text);
        case Yield(chunk) =>
          var lines := capture.Drain(false);
          var (m, parts) := Normalized(z, n, chunk);
          n, sawDone, chunks := m, sawDone || chunk.kind.Done?, chunks + (Notices(lines) + parts);
      }
    }
    assert b.actions[|b.actions|..] == [];
    if b.failure.Some? {
      Unit(chunks);
      return Outcome(chunks, b.failure);
    }
    var lines := capture.Drain(true);
    return Outcome(chunks + (Notices(lines) + Ending(z, n, sawDone)), None);
  }

  /** The text printed before each chunk, with the chunk, and the text printed after the last. */
  datatype Told = Told(pieces: seq<(string, Chunk)>, end: string)

  function Telling(actions: seq<Action>): Told {
    if actions == [] then Told([], "")
    else
      var t := Telling(actions[1..]);
      match actions[0]
      case Yield(chunk) => Told([("", chunk)] + t.pieces, t.end)
      case Print(text) =>
        if t.pieces == [] then Told([], text + t.end)
        else Told([(text + t.pieces[0].0, t.pieces[0].1)] + t.pieces[1..], t.end)
  }

  /** The stream told from such an account alone. */
  function ToldStream<N>(z: Normalizer<N>, t: Told, failure: Option<string>, c: Capture, n: N, sawDone: bool): Outcome
    decreases |t.pieces|
  {
    if t.pieces == [] then
      if failure.Some? then Outcome([], failure)
      else Outcome(Notices(FinalLines(Written(c, t.end))) + Ending(z, n, sawDone), None)
    else
      var (text, chunk) := t.pieces[0];
      var (w, (m, parts)) := (Written(c, text), Normalized(z, n, chunk));
      Then(Notices(w.lines) + parts,
           ToldStream(z, t.(pieces := t.pieces[1..]), failure, w.(lines := []), m, sawDone || chunk.kind.Done?))
  }

  /** A capture whose buffer holds no complete line. */
  predicate Cut(c: Capture) {
    '\n' !in c.partial
  }

  lemma WrittenCut(c: Capture, text: string)
    ensures Cut(Written(c, text))
    ensures Cut(c) ==> Written(c, "") == c
  {
    var parts := Split(c.partial + text, '\n');
    SplitParts(c.partial + text, '\n');
    assert '\n' !in parts[|parts| - 1];
    if Cut(c) {
      NothingToCut(c);
    }
  }

  lemma {:induction false} StreamIsTold<N>(z: Normalizer<N>, b: Backend, c: Capture, n: N, sawDone: bool)
    requires Cut(c)
    ensures SyncStream(z, b, c, n, sawDone) == ToldStream(z, Telling(b.actions), b.failure, c, n, sawDone)
    decreases |b.actions|
  {
    if b.actions == [] {
      WrittenCut(c, "");
    } else {
      var (rest, t) := (b.(actions := b.actions[1..]), Telling(b.actions[1..]));
      match b.actions[0]
      case Yield(chunk) =>
        WrittenCut(c, "");
        assert ([("", chunk)] + t.pieces)[1..] == t.pieces;
        StreamIsTold(z, rest, c.(lines := []), Normalized(z, n, chunk).0, sawDone || chunk.kind.Done?);
      case Print(text) =>
        WrittenCut(c, text);
        StreamIsTold(z, rest, Written(c, text), n, sawDone);
        WritesMerge(c, text, t.end);
        if t.pieces != [] {
          WritesMerge(c, text, t.pieces[0].0);
          assert ([(text + t.pieces[0].0, t.pieces[0].1)] + t.pieces[1..])[1..] == t.pieces[1..];
        }
    }
  }

  /** For whole generations: the same chunks with the same text printed between them give the
      same stream, however the text was cut into writes. */
  lemma PrintsMerge<N>(z: Normalizer<N>, a: Backend, b: Backend)
    requires Telling(a.actions) == Telling(b.actions) && a.failure == b.failure
    ensures SyncStream(z, a, EMPTY, z.start, false) == SyncStream(z, b, EMPTY, z.start, false)
  {
    StreamIsTold(z, a, EMPTY, z.start, false);
    StreamIsTold(z, b, EMPTY, z.start, false);
  }

  // ---------- the bridge ----------

  const CAPACITY := 512

  datatype Item = Notify(line: string) | Raw(chunk: Chunk) | End

  datatype Phase = Draining | Closed | Raised(error: string)

  /** Worker thread, queue and consumer. `pending` are the items the worker still has to
      put, one blocking put at a time; `parts` those the consumer still has to yield. */
  datatype Bridge<!N> = Bridge(
    backend: Backend,
    capture: Capture,
    pending: seq<Item>,
    ended: bool,
    errorHolder: Option<string>,
    queue: seq<Item>,
    n: N,
    sawDone: bool,
    parts: seq<Chunk>,
    phase: Phase,
    output: seq<Chunk>)

  datatype Turn = Work | Put | Get | Emit

  function Opened<N>(z: Normalizer<N>, b: Backend): Bridge<N> {
    Bridge(b, EMPTY, [], false, None, [], z.start, false, [], Draining, [])
  }

  function Notifies(lines: seq<string>): seq<Item> {
    seq(|lines|, i requires 0 <= i < |lines| => Notify(lines[i]))
  }

  predicate CanTurn<N>(s: Bridge<N>, t: Turn) {
    match t
    case Work => s.pending == [] && !s.ended
    case Put => s.pending != [] && |s.queue| < CAPACITY
    case Get => s.phase.Draining? && s.parts == [] && s.queue != []
    case Emit => s.parts != []
  }

  /** One step of the backend generator on the worker thread, up to its next blocking put. */
  function WorkTurn<N>(s: Bridge<N>): Bridge<N>
    requires CanTurn(s, Work)
  {
    var b := s.backend;
    if b.actions == [] then
      if b.failure.Some? then s.(errorHolder := b.failure, pending := [End], ended := true)
      else s.(capture := EMPTY, pending := Notifies(FinalLines(s.capture)) + [End], ended := true)
    else
      var rest := s.(backend := b.(actions := b.actions[1..]));
      match b.actions[0]
      case Print(text) => rest.(capture := Written(s.capture, text))
      case Yield(chunk) =>
        rest.(capture := s.capture.(lines := []), pending := Notifies(s.capture.lines) + [Raw(chunk)])
  }

  function GetTurn<N>(z: Normalizer<N>, s: Bridge<N>): Bridge<N>
    requires CanTurn(s, Get)
  {
    var rest := s.(queue := s.queue[1..]);
    match s.queue[0]
    case Notify(line) => rest.(parts := [Notice(line)])
    case Raw(chunk) =>
      var (m, parts) := Normalized(z, s.n, chunk);
      rest.(n := m, parts := parts, sawDone := s.sawDone || chunk.kind.Done?)
    case End =>
      if s.errorHolder.Some? then rest.(phase := Raised(s.errorHolder.value))
      else rest.(parts := Ending(z, s.n, s.sawDone), phase := Closed)
  }

  function TakeTurn<N>(z: Normalizer<N>, s: Bridge<N>, t: Turn): Bridge<N>
    requires CanTurn(s, t)
  {
    match t
    case Work => WorkTurn(s)
    case Put => s.(queue := s.queue + [s.pending[0]], pending := s.pending[1..])
    case Get => GetTurn(z, s)
    case Emit => s.(output := s.output + [s.parts[0]], parts := s.parts[1..])
  }

  // ---------- the bridge refines the synchronous stream ----------

  /** The items the worker has still to produce. */
  function Future(b: Backend, c: Capture): seq<Item>
    decreases |b.actions|
  {
    if b.actions == [] then if b.failure.Some? then [End] else Notifies(FinalLines(c)) + [End]
    else
      var rest := b.(actions := b.actions[1..]);
      match b.actions[0]
      case Print(text) => Future(rest, Written(c, text))
      case Yield(chunk) => Notifies(c.lines) + [Raw(chunk)] + Future(rest, c.(lines := []))
  }

  /** What a consumer makes of an item sequence, given the exception behind its end marker. */
  function Consume<N>(z: Normalizer<N>, n: N, sawDone: bool, items: seq<Item>, failure: Option<string>): Outcome
    decreases |items|
  {
    if items == [] then Outcome([], failure)
    else
      match items[0]
      case Notify(line) => Then([Notice(line)], Consume(z, n, sawDone, items[1..], failure))
      case Raw(chunk) =>
        var (m, parts) := Normalized(z, n, chunk);
        Then(parts, Consume(z, m, sawDone || chunk.kind.Done?, items[1..], failure))
      case End => if failure.Some? then Outcome([], failure) else Outcome(Ending(z, n, sawDone), None)
  }

  lemma {:induction false} ConsumeNotices<N>(
      z: Normalizer<N>, n: N, sawDone: bool, lines: seq<string>, items: seq<Item>, failure: Option<string>)
    ensures Consume(z, n, sawDone, Notifies(lines) + items, failure)
         == Then(Notices(lines), Consume(z, n, sawDone, items, failure))
  {
    if lines == [] {
      assert Notifies(lines) + items == items;
    } else {
      ConsumeNotices(z, n, sawDone, lines[1..], items, failure);
      var all := Notifies(lines) + items;
      assert all[1..] == Notifies(lines[1..]) + items;
      assert [Notice(lines[0])] + Notices(lines[1..]) == Notices(lines);
      assert [Notice(lines[0])] + (Notices(lines[1..]) + Consume(z, n, sawDone, items, failure).chunks)
          == Notices(lines) + Consume(z, n, sawDone, items, failure).chunks;
    }
  }

  /** Consuming what the worker produces is the synchronous stream. */
  lemma {:induction false} FutureIsSync<N>(z: Normalizer<N>, b: Backend, c: Capture, n: N, sawDone: bool)
    ensures Consume(z, n, sawDone, Future(b, c), b.failure) == SyncStream(z, b, c, n, sawDone)
    decreases |b.actions|
  {
    if b.actions == [] {
      if b.failure.None? {
        ConsumeNotices(z, n, sawDone, FinalLines(c), [End], b.failure);
      }
    } else {
      var rest := b.(actions := b.actions[1..]);
      match b.actions[0]
      case Print(text) => FutureIsSync(z, rest, Written(c, text), n, sawDone);
      case Yield(chunk) =>
        var (m, parts) := Normalized(z, n, chunk);
        var tail := Future(rest, c.(lines := []));
        FutureIsSync(z, rest, c.(lines := []), m, sawDone || chunk.kind.Done?);
        ConsumeNotices(z, n, sawDone, c.lines, [Raw(chunk)] + tail, b.failure);
        assert Notifies(c.lines) + [Raw(chunk)] + tail == Notifies(c.lines) + ([Raw(chunk)] + tail);
        assert ([Raw(chunk)] + tail)[1..] == tail;
    }
  }

  /** Everything on its way from the worker to the consumer. */
  function Coming<N>(s: Bridge<N>): seq<Item> {
    s.queue + s.pending + if s.ended then [] else Future(s.backend, s.capture)
  }

  /** The end marker is the last item and occurs once. */
  predicate EndsOnce(items: seq<Item>) {
    items != [] && items[|items| - 1] == End && End !in items[..|items| - 1]
  }

  ghost predicate Inv<N>(z: Normalizer<N>, s: Bridge<N>, goal: Outcome) {
    && |s.queue| <= CAPACITY
    && s.backend.failure == goal.failure
    && (s.ended ==> s.errorHolder == goal.failure)
    && (!s.ended ==> s.phase.Draining? && s.errorHolder.None? && End !in s.queue + s.pending)
    && match s.phase
       case Draining =>
         && (s.ended ==> EndsOnce(s.queue + s.pending))
         && Then(s.output + s.parts, Consume(z, s.n, s.sawDone, Coming(s), goal.failure)) == goal
       case Closed => s.pending == [] && s.queue == [] && Outcome(s.output + s.parts, None) == goal
       case Raised(e) => s.pending == [] && s.queue == [] && s.parts == [] && Outcome(s.output, Some(e)) == goal
  }

  lemma NoEndInNotifies(lines: seq<string>)
    ensures End !in Notifies(lines)
  {
  }

  lemma WorkComing<N>(s: Bridge<N>)
    requires CanTurn(s, Work)
    ensures Coming(WorkTurn(s)) == Coming(s)
  {
    var t := WorkTurn(s);
    Unit(s.queue);
    Unit(s.queue + t.pending);
    Assoc(s.queue, t.pending, if t.ended then [] else Future(t.backend, t.capture));
    Unit(Future(t.backend, t.capture));
  }

  lemma WorkMarks<N>(s: Bridge<N>)
    requires CanTurn(s, Work) && End !in s.queue
    ensures var t := WorkTurn(s);
            if t.ended then EndsOnce(t.queue + t.pending) else End !in t.queue + t.pending
  {
    var t := WorkTurn(s);
    NoEndInNotifies(s.capture.lines);
    NoEndInNotifies(FinalLines(s.capture));
    if t.ended {
      FrontOfConcat(t.queue, t.pending);
    }
  }

  lemma WorkKeeps<N>(z: Normalizer<N>, s: Bridge<N>, goal: Outcome)
    requires Inv(z, s, goal) && CanTurn(s, Work)
    ensures Inv(z, WorkTurn(s), goal)
  {
    assert s.pending == [];
    Unit(s.queue);
    WorkComing(s);
    WorkMarks(s);
  }

  lemma PutKeeps<N>(z: Normalizer<N>, s: Bridge<N>, goal: Outcome)
    requires Inv(z, s, goal) && CanTurn(s, Put)
    ensures Inv(z, TakeTurn(z, s, Put), goal)
  {
    var t := TakeTurn(z, s, Put);
    assert t.queue + t.pending == s.queue + s.pending;
  }

  lemma FrontHas(items: seq<Item>)
    requires items != []
    ensures forall i | 0 <= i < |items| - 1 :: items[i] in items[..|items| - 1]
  {
    forall i | 0 <= i < |items| - 1 ensures items[i] in items[..|items| - 1] {
      assert items[..|items| - 1][i] == items[i];
    }
  }

  lemma GetEndKeeps<N>(z: Normalizer<N>, s: Bridge<N>, goal: Outcome)
    requires Inv(z, s, goal) && CanTurn(s, Get) && s.queue[0].End?
    ensures Inv(z, GetTurn(z, s), goal)
  {
    var items := s.queue + s.pending;
    assert items[0] == End;
    FrontHas(items);
    assert Coming(s) == [End];
    assert s.output + [] == s.output;
  }

  /** Taking the first item leaves what comes behind it. */
  lemma GetLeaves<N>(z: Normalizer<N>, s: Bridge<N>)
    requires CanTurn(s, Get)
    ensures GetTurn(z, s).queue + GetTurn(z, s).pending == (s.queue + s.pending)[1..]
    ensures (s.queue + s.pending)[0] == s.queue[0]
  {
  }

  lemma EndsLater(items: seq<Item>)
    requires items != [] && items[0] != End
    ensures EndsOnce(items) ==> EndsOnce(items[1..])
    ensures End !in items ==> End !in items[1..]
  {
    if EndsOnce(items) {
      assert items[1..][..|items| - 2] == items[..|items| - 1][1..];
    }
  }

  lemma GetItemKeeps<N>(z: Normalizer<N>, s: Bridge<N>, goal: Outcome)
    requires Inv(z, s, goal) && CanTurn(s, Get) && !s.queue[0].End?
    ensures Inv(z, GetTurn(z, s), goal)
  {
    var t := GetTurn(z, s);
    GetLeaves(z, s);
    EndsLater(s.queue + s.pending);
    ConsumeOne(z, s);
    Unit(s.output);
    Assoc(s.output, t.parts, Consume(z, t.n, t.sawDone, Coming(t), goal.failure).chunks);
  }

  lemma ConsumeOne<N>(z: Normalizer<N>, s: Bridge<N>)
    requires CanTurn(s, Get) && !s.queue[0].End?
    ensures var t := GetTurn(z, s);
            && t.output == s.output && t.backend == s.backend
            && Consume(z, s.n, s.sawDone, Coming(s), s.backend.failure)
            == Then(t.parts, Consume(z, t.n, t.sawDone, Coming(t), s.backend.failure))
  {
    var t := GetTurn(z, s);
    assert Coming(s)[0] == s.queue[0] && Coming(s)[1..] == Coming(t);
  }

  lemma GetKeeps<N>(z: Normalizer<N>, s: Bridge<N>, goal: Outcome)
    requires Inv(z, s, goal) && CanTurn(s, Get)
    ensures Inv(z, GetTurn(z, s), goal)
  {
    if s.queue[0].End? {
      GetEndKeeps(z, s, goal);
    } else {
      GetItemKeeps(z, s, goal);
    }
  }

  lemma EmitKeeps<N>(z: Normalizer<N>, s: Bridge<N>, goal: Outcome)
    requires Inv(z, s, goal) && CanTurn(s, Emit)
    ensures Inv(z, TakeTurn(z, s, Emit), goal)
  {
    var t := TakeTurn(z, s, Emit);
    assert t.output + t.parts == s.output + s.parts;
  }

  lemma TurnKeeps<N>(z: Normalizer<N>, s: Bridge<N>, t: Turn, goal: Outcome)
    requires Inv(z, s, goal) && CanTurn(s, t)
    ensures Inv(z, TakeTurn(z, s, t), goal)
  {
    match t
    case Work => WorkKeeps(z, s, goal);
    case Put => PutKeeps(z, s, goal);
    case Get => GetKeeps(z, s, goal);
    case Emit => EmitKeeps(z, s, goal);
  }

  lemma OpenedInv<N>(z: Normalizer<N>, b: Backend)
    ensures Inv(z, Opened(z, b), SyncStream(z, b, EMPTY, z.start, false))
  {
    var s := Opened(z, b);
    FutureIsSync(z, b, EMPTY, z.start, false);
    SyncFailure(z, b, EMPTY, z.start, false);
    assert Coming(s) == Future(b, EMPTY);
  }

  lemma {:induction false} SyncFailure<N>(z: Normalizer<N>, b: Backend, c: Capture, n: N, sawDone: bool)
    ensures SyncStream(z, b, c, n, sawDone).failure == b.failure
    decreases |b.actions|
  {
    if b.actions != [] {
      var rest := b.(actions := b.actions[1..]);
      match b.actions[0]
      case Print(text) => SyncFailure(z, rest, Written(c, text), n, sawDone);
      case Yield(chunk) =>
        var (m, parts) := Normalized(z, n, chunk);
        SyncFailure(z, rest, c.(lines := []), m, sawDone || chunk.kind.Done?);
    }
  }

  /** The bridge after a schedule of turns, or `None` when a turn was not possible. */
  function Scheduled<N>(z: Normalizer<N>, b: Backend, turns: seq<Turn>): Option<Bridge<N>> {
    if turns == [] then Some(Opened(z, b))
    else
      var before, t := Scheduled(z, b, turns[..|turns| - 1]), turns[|turns| - 1];
      if before.Some? && CanTurn(before.value, t) then Some(TakeTurn(z, before.value, t)) else None
  }

  lemma {:induction false} ScheduledInv<N>(z: Normalizer<N>, b: Backend, turns: seq<Turn>)
    requires Scheduled(z, b, turns).Some?
    ensures Inv(z, Scheduled(z, b, turns).value, SyncStream(z, b, EMPTY, z.start, false))
  {
    if turns == [] {
      OpenedInv(z, b);
    } else {
      var front := turns[..|turns| - 1];
      ScheduledInv(z, b, front);
      TurnKeeps(z, Scheduled(z, b, front).value, turns[|turns| - 1], SyncStream(z, b, EMPTY, z.start, false));
    }
  }

  /** A bridge with no possible turn has delivered everything. */
  lemma StuckIsDelivered<N>(z: Normalizer<N>, s: Bridge<N>, goal: Outcome)
    requires Inv(z, s, goal) && forall t :: !CanTurn(s, t)
    ensures !s.phase.Draining? && s.parts == [] && s.output == goal.chunks
    ensures goal.failure == if s.phase.Raised? then Some(s.phase.error) else None
  {
    assert !CanTurn(s, Work) && !CanTurn(s, Put) && !CanTurn(s, Get) && !CanTurn(s, Emit);
    assert s.output + [] == s.output;
  }

  /** Under every schedule the output so far is a prefix of the synchronous stream, the queue
      stays within its bound, and when no turn is left the consumer has seen exactly the
      synchronous stream: the same chunks in the same places and the same exception. */
  lemma BridgeRefinesSync<N>(z: Normalizer<N>, b: Backend, turns: seq<Turn>, s: Bridge<N>)
    requires Scheduled(z, b, turns) == Some(s)
    ensures var sync := SyncStream(z, b, EMPTY, z.start, false);
            && s.output <= sync.chunks
            && |s.queue| <= CAPACITY
            && ((forall t :: !CanTurn(s, t)) <==> !s.phase.Draining? && s.parts == [])
            && (!s.phase.Draining? && s.parts == [] ==>
                  && s.output == sync.chunks
                  && sync.failure == if s.phase.Raised? then Some(s.phase.error) else None)
  {
    ScheduledInv(z, b, turns);
    assert s.output + [] == s.output;
    if forall t :: !CanTurn(s, t) {
      StuckIsDelivered(z, s, SyncStream(z, b, EMPTY, z.start, false));
    }
  }

  // ---------- every run ends ----------

  /** A schedule that keeps choosing possible turns, looking at the whole history if it likes. */
  ghost predicate PicksPossible<N(!new)>(z: Normalizer<N>, choose: (nat, Bridge<N>) -> Turn) {
    forall k: nat, s: Bridge<N> :: (exists t :: CanTurn(s, t)) ==> CanTurn(s, choose(k, s))
  }

  lemma TurnShrinks<N>(z: Normalizer<N>, s: Bridge<N>, t: Turn)
    requires CanTurn(s, t)
    ensures var (next, work) := (TakeTurn(z, s, t), |s.backend.actions| + (if s.ended then 0 else 1));
            var nextWork := |next.backend.actions| + (if next.ended then 0 else 1);
            || nextWork < work
            || (nextWork == work && |next.pending| < |s.pending|)
            || (nextWork == work && next.pending == s.pending && |next.queue| < |s.queue|)
            || (nextWork == work && next.pending == s.pending && next.queue == s.queue && |next.parts| < |s.parts|)
  {
  }

  /** Running until no turn is left; it always gets there. */
  ghost function RunOut<N(!new)>(z: Normalizer<N>, s: Bridge<N>, choose: (nat, Bridge<N>) -> Turn, k: nat): Bridge<N>
    requires PicksPossible(z, choose)
    decreases |s.backend.actions| + (if s.ended then 0 else 1), |s.pending|, |s.queue|, |s.parts|
  {
    if exists t :: CanTurn(s, t) then
      assert CanTurn(s, choose(k, s));
      RunOut(z, TakeTurn(z, s, choose(k, s)), choose, k + 1)
    else s
  }

  lemma {:induction false} RunOutSync<N(!new)>(
      z: Normalizer<N>, s: Bridge<N>, choose: (nat, Bridge<N>) -> Turn, k: nat, goal: Outcome)
    requires PicksPossible(z, choose) && Inv(z, s, goal)
    ensures var end := RunOut(z, s, choose, k);
            && end.output == goal.chunks
            && goal.failure == if end.phase.Raised? then Some(end.phase.error) else None
    decreases |s.backend.actions| + (if s.ended then 0 else 1), |s.pending|, |s.queue|, |s.parts|
  {
    if exists t :: CanTurn(s, t) {
      assert CanTurn(s, choose(k, s));
      var next := TakeTurn(z, s, choose(k, s));
      TurnKeeps(z, s, choose(k, s), goal);
      assert RunOut(z, s, choose, k) == RunOut(z, next, choose, k + 1);
      TurnShrinks(z, s, choose(k, s));
      RunOutSync(z, next, choose, k + 1, goal);
    } else {
      StuckIsDelivered(z, s, goal);
    }
  }

  /** Whatever the schedule, the bridge runs to its end and delivers the synchronous stream. */
  lemma EveryScheduleDelivers<N(!new)>(z: Normalizer<N>, b: Backend, choose: (nat, Bridge<N>) -> Turn)
    requires PicksPossible(z, choose)
    ensures var (sync, end) := (SyncStream(z, b, EMPTY, z.start, false), RunOut(z, Opened(z, b), choose, 0));
            && end.output == sync.chunks
            && sync.failure == if end.phase.Raised? then Some(end.phase.error) else None
  {
    OpenedInv(z, b);
    RunOutSync(z, Opened(z, b), choose, 0, SyncStream(z, b, EMPTY, z.start, false));
  }
}
