/** Streamed chat completions: tool-call fragments gathered per index, announced once and
    delivered when the stream finishes. */
module OpenAiStream {
  import opened Text

  datatype Index = Index(n: int)

  /** One fragment of a tool call; an absent or empty text is `""`. */
  datatype Delta = Delta(index: Option<Index>, id: string, name: string, arguments: string)

  datatype Call = Call(id: string, name: string, arguments: string)

  /** The notification that a call has got its name. */
  datatype Note = Note(index: Index, name: string)

  datatype Acc = Acc(calls: map<Index, Call>, announced: set<Index>)

  const EMPTY := Acc(map[], {})

  // ---------- one fragment ----------

  function Place(acc: Acc, d: Delta): Index {
    match d.index
    case Some(index) => index
    case None => Index(|acc.calls|)
  }

  function Merge(c: Call, d: Delta): Call {
    Call(if d.id != "" then d.id else c.id, if d.name != "" then d.name else c.name, c.arguments + d.arguments)
  }

  function CallAt(acc: Acc, index: Index): Call {
    if index in acc.calls then acc.calls[index] else Call("", "", "")
  }

  function NoteOf(acc: Acc, d: Delta): seq<Note> {
    var i := Place(acc, d);
    var call := Merge(CallAt(acc, i), d);
    if call.name != "" && i !in acc.announced then [Note(i, call.name)] else []
  }

  function Ingest1(acc: Acc, d: Delta): Acc {
    var i := Place(acc, d);
    var call := Merge(CallAt(acc, i), d);
    Acc(acc.calls[i := call], if call.name != "" then acc.announced + {i} else acc.announced)
  }

  // ---------- a list of fragments ----------

  function Ingest(acc: Acc, ds: seq<Delta>): Acc {
    if ds == [] then acc else Ingest1(Ingest(acc, ds[..|ds| - 1]), ds[|ds| - 1])
  }

  function Notes(acc: Acc, ds: seq<Delta>): seq<Note> {
    if ds == [] then []
    else Notes(acc, ds[..|ds| - 1]) + NoteOf(Ingest(acc, ds[..|ds| - 1]), ds[|ds| - 1])
  }

  lemma {:induction false} IngestConcat(acc: Acc, a: seq<Delta>, b: seq<Delta>)
    ensures Ingest(acc, a + b) == Ingest(Ingest(acc, a), b)
    ensures Notes(acc, a + b) == Notes(acc, a) + Notes(Ingest(acc, a), b)
  {
    if b == [] {
      Unit(a);
      Unit(Notes(acc, a));
    } else {
      var (front, last) := (b[..|b| - 1], b[|b| - 1]);
      IngestConcat(acc, a, front);
      FrontOfConcat(a, b);
      Assoc(Notes(acc, a), Notes(Ingest(acc, a), front), NoteOf(Ingest(acc, a + front), last));
    }
  }

  predicate Least(x: Index, keys: set<Index>) {
    x in keys && forall k | k in keys :: x.n <= k.n
  }

  /** `sorted` on a set of indices. */
  function Sorted(keys: set<Index>): (r: seq<Index>)
    ensures forall i, j | 0 <= i < j < |r| :: r[i].n < r[j].n
    ensures forall k :: k in keys <==> k in r
  {
    if keys == {} then []
    else
      LeastExists(keys);
      var least :| Least(least, keys);
      [least] + Sorted(keys - {least})
  }

  lemma {:induction false} LeastExists(keys: set<Index>)
    requires keys != {}
    ensures exists least :: Least(least, keys)
  {
    var x :| x in keys;
    if keys == {x} {
      assert Least(x, keys);
    } else {
      var rest := keys - {x};
      LeastExists(rest);
      var least :| Least(least, rest);
      assert Least(if x.n < least.n then x else least, keys);
    }
  }

  function CallsIn(acc: Acc, order: seq<Index>): (r: seq<Call>)
    ensures |r| == |order| && forall i | 0 <= i < |r| :: r[i] == CallAt(acc, order[i])
  {
    if order == [] then [] else CallsIn(acc, order[..|order| - 1]) + [CallAt(acc, order[|order| - 1])]
  }

  function Finalized(acc: Acc): seq<Call> {
    CallsIn(acc, Sorted(acc.calls.Keys))
  }

  // ---------- what is gathered, said without an accumulator ----------

  /** The fragments of one index, in order. */
  function Own(ds: seq<Delta>, index: Index): seq<Delta> {
    if ds == [] then []
    else Own(ds[..|ds| - 1], index) + (if ds[|ds| - 1].index == Some(index) then [ds[|ds| - 1]] else [])
  }

  function LastId(own: seq<Delta>): string {
    if own == [] then "" else if own[|own| - 1].id != "" then own[|own| - 1].id else LastId(own[..|own| - 1])
  }

  function LastName(own: seq<Delta>): string {
    if own == [] then "" else if own[|own| - 1].name != "" then own[|own| - 1].name else LastName(own[..|own| - 1])
  }

  function AllArguments(own: seq<Delta>): string {
    if own == [] then "" else AllArguments(own[..|own| - 1]) + own[|own| - 1].arguments
  }

  /** The name an index is announced under: its first one. */
  function FirstName(own: seq<Delta>): string {
    if own == [] then ""
    else if FirstName(own[..|own| - 1]) != "" then FirstName(own[..|own| - 1])
    else own[|own| - 1].name
  }

  predicate Explicit(ds: seq<Delta>) {
    forall i | 0 <= i < |ds| :: ds[i].index.Some?
  }

  function NotesAt(notes: seq<Note>, index: Index): seq<Note> {
    if notes == [] then []
    else NotesAt(notes[..|notes| - 1], index) +
         (if notes[|notes| - 1].index == index then [notes[|notes| - 1]] else [])
  }

  lemma NamesAgree(own: seq<Delta>)
    ensures FirstName(own) == "" <==> LastName(own) == ""
  {
  }

  lemma NotesAtMore(notes: seq<Note>, more: seq<Note>, index: Index)
    requires |more| <= 1
    ensures NotesAt(notes + more, index)
            == NotesAt(notes, index) + (if more != [] && more[0].index == index then more else [])
  {
    if more == [] {
      assert notes + more == notes;
    } else {
      assert (notes + more)[..|notes|] == notes;
    }
  }

  lemma OwnMore(own: seq<Delta>, d: Delta)
    ensures LastId(own + [d]) == if d.id != "" then d.id else LastId(own)
    ensures LastName(own + [d]) == if d.name != "" then d.name else LastName(own)
    ensures FirstName(own + [d]) == if FirstName(own) != "" then FirstName(own) else d.name
    ensures AllArguments(own + [d]) == AllArguments(own) + d.arguments
  {
    FrontOfConcat(own, [d]);
    Unit(own);
    assert [d][..0] == [];
  }

  /** With explicit indices, an index is present exactly when it has fragments; its call has
      the last non-empty id and name and all the arguments in order; and it is announced
      exactly once, under its first name, when it has one at all. */
  lemma {:induction false} IngestExact(ds: seq<Delta>, index: Index)
    requires Explicit(ds)
    ensures var (acc, own) := (Ingest(EMPTY, ds), Own(ds, index));
            && (index in acc.calls <==> own != [])
            && CallAt(acc, index) == Call(LastId(own), LastName(own), AllArguments(own))
            && (index in acc.announced <==> LastName(own) != "")
            && NotesAt(Notes(EMPTY, ds), index) == (if LastName(own) != "" then [Note(index, FirstName(own))] else [])
  {
    if ds != [] {
      var (front, d) := (ds[..|ds| - 1], ds[|ds| - 1]);
      IngestExact(front, index);
      var acc := Ingest(EMPTY, front);
      NotesAtMore(Notes(EMPTY, front), NoteOf(acc, d), index);
      var own := Own(front, index);
      NamesAgree(own);
      if d.index == Some(index) {
        OwnMore(own, d);
        NamesAgree(own + [d]);
      } else {
        Unit(own);
      }
    }
  }

  /** Two deliveries with the same fragments per index, in the same order per index. */
  ghost predicate SamePerIndex(a: seq<Delta>, b: seq<Delta>) {
    forall index :: Own(a, index) == Own(b, index)
  }

  lemma AgreeAt(a: seq<Delta>, b: seq<Delta>, index: Index)
    requires Explicit(a) && Explicit(b) && Own(a, index) == Own(b, index)
    ensures var (x, y) := (Ingest(EMPTY, a), Ingest(EMPTY, b));
            && (index in x.calls <==> index in y.calls)
            && CallAt(x, index) == CallAt(y, index)
            && (index in x.announced <==> index in y.announced)
    ensures NotesAt(Notes(EMPTY, a), index) == NotesAt(Notes(EMPTY, b), index)
  {
    IngestExact(a, index);
    IngestExact(b, index);
  }

  lemma SameAcc(x: Acc, y: Acc)
    requires forall index :: (index in x.calls <==> index in y.calls) && CallAt(x, index) == CallAt(y, index)
    requires forall index :: index in x.announced <==> index in y.announced
    ensures x == y
  {
    forall index | index in x.calls ensures index in y.calls && x.calls[index] == y.calls[index] {
      assert CallAt(x, index) == CallAt(y, index);
    }
    assert x.calls == y.calls && x.announced == y.announced;
  }

  /** However fragments of different indices are interleaved, the finished calls and the set of
      announced indices are the same. */
  lemma InterleavingIrrelevant(a: seq<Delta>, b: seq<Delta>)
    requires Explicit(a) && Explicit(b) && SamePerIndex(a, b)
    ensures Ingest(EMPTY, a) == Ingest(EMPTY, b)
    ensures Finalized(Ingest(EMPTY, a)) == Finalized(Ingest(EMPTY, b))
    ensures forall index :: NotesAt(Notes(EMPTY, a), index) == NotesAt(Notes(EMPTY, b), index)
  {
    forall index
      ensures (index in Ingest(EMPTY, a).calls <==> index in Ingest(EMPTY, b).calls)
      ensures CallAt(Ingest(EMPTY, a), index) == CallAt(Ingest(EMPTY, b), index)
      ensures index in Ingest(EMPTY, a).announced <==> index in Ingest(EMPTY, b).announced
      ensures NotesAt(Notes(EMPTY, a), index) == NotesAt(Notes(EMPTY, b), index)
    {
      assert Own(a, index) == Own(b, index);
      AgreeAt(a, b, index);
    }
    SameAcc(Ingest(EMPTY, a), Ingest(EMPTY, b));
  }

  /** The finished list: one call per index that has fragments, by ascending index, with the
      last non-empty id and name and the arguments joined in order. */
  lemma FinalizedExact(ds: seq<Delta>) returns (order: seq<Index>)
    requires Explicit(ds)
    ensures forall i, j | 0 <= i < j < |order| :: order[i].n < order[j].n
    ensures forall index :: index in order <==> Own(ds, index) != []
    ensures var calls := Finalized(Ingest(EMPTY, ds));
            && |calls| == |order|
            && forall i | 0 <= i < |order| ::
                 var own := Own(ds, order[i]); calls[i] == Call(LastId(own), LastName(own), AllArguments(own))
  {
    order := Sorted(Ingest(EMPTY, ds).calls.Keys);
    forall index
      ensures index in Ingest(EMPTY, ds).calls.Keys <==> Own(ds, index) != []
      ensures CallAt(Ingest(EMPTY, ds), index)
              == Call(LastId(Own(ds, index)), LastName(Own(ds, index)), AllArguments(Own(ds, index)))
    {
      IngestExact(ds, index);
    }
  }

  // ---------- when two fragments may change places ----------

  /** One fragment taken at a given place. */
  function Land(acc: Acc, p: Index, d: Delta): Acc {
    var call := Merge(CallAt(acc, p), d);
    Acc(acc.calls[p := call], if call.name != "" then acc.announced + {p} else acc.announced)
  }

  lemma IngestLands(acc: Acc, d: Delta)
    ensures Ingest1(acc, d) == Land(acc, Place(acc, d), d)
  {
  }

  /** The order of two fragments of one call does not show. */
  predicate Interchangeable(a: Delta, b: Delta) {
    && (a.id == "" || b.id == "" || a.id == b.id)
    && (a.name == "" || b.name == "" || a.name == b.name)
    && a.arguments + b.arguments == b.arguments + a.arguments
  }

  /** A fragment that changes nothing at a place. */
  predicate Traceless(acc: Acc, p: Index, d: Delta) {
    && p in acc.calls && d.arguments == ""
    && d.id in ["", acc.calls[p].id] && d.name in ["", acc.calls[p].name]
    && (acc.calls[p].name != "" ==> p in acc.announced)
  }

  /** Everything of `d` is overwritten by a following `over`. */
  predicate Overwritten(d: Delta, over: Delta) {
    d.arguments == "" && (d.id == "" || over.id != "") && (d.name == "" || over.name != "")
  }

  /** `a` opens a new call at its own index, so that it moves the place of `b`, which has none. */
  predicate Displaces(acc: Acc, a: Delta, b: Delta) {
    a.index.Some? && a.index.value !in acc.calls && b.index.None?
  }

  /** The moved fragment leaves no trace at either of its places. */
  predicate Harmless(acc: Acc, a: Delta, b: Delta)
    requires Displaces(acc, a, b)
  {
    var (k, grown) := (|acc.calls|, Ingest1(acc, a));
    && Traceless(grown, Index(k + 1), b)
    && (if a.index.value == Index(k) then Overwritten(b, a) else Traceless(grown, Index(k), b))
  }

  /** When two neighbouring fragments may change places: said of the fragments and of the calls
      there are. */
  predicate Commute(acc: Acc, a: Delta, b: Delta) {
    if Displaces(acc, a, b) then Harmless(acc, a, b)
    else if Displaces(acc, b, a) then Harmless(acc, b, a)
    else if a.index.None? && b.index.None? && Index(|acc.calls|) !in acc.calls then a == b
    else Place(acc, a) == Place(acc, b) ==> Interchangeable(a, b)
  }

  lemma MergeCommutes(c: Call, a: Delta, b: Delta)
    ensures Merge(Merge(c, a), b) == Merge(Merge(c, b), a) <==> Interchangeable(a, b)
  {
    SameArguments(c.arguments, a.arguments, b.arguments);
  }

  lemma SameArguments(s: string, x: string, y: string)
    ensures s + x + y == s + y + x <==> x + y == y + x
  {
    assert s + x + y == s + (x + y) && s + y + x == s + (y + x);
    assert (s + (x + y))[|s|..] == x + y && (s + (y + x))[|s|..] == y + x;
  }

  lemma LandApart(acc: Acc, p: Index, a: Delta, q: Index, b: Delta)
    requires p != q
    ensures Land(Land(acc, p, a), q, b) == Land(Land(acc, q, b), p, a)
  {
    var (x, y) := (Land(Land(acc, p, a), q, b), Land(Land(acc, q, b), p, a));
    assert x.calls == y.calls;
    assert x.announced == y.announced;
  }

  lemma LandTogether(acc: Acc, p: Index, a: Delta, b: Delta)
    ensures Land(Land(acc, p, a), p, b) == Land(Land(acc, p, b), p, a) <==> Interchangeable(a, b)
  {
    var (x, y) := (Land(Land(acc, p, a), p, b), Land(Land(acc, p, b), p, a));
    MergeCommutes(CallAt(acc, p), a, b);
    assert x.calls[p] == Merge(Merge(CallAt(acc, p), a), b) && y.calls[p] == Merge(Merge(CallAt(acc, p), b), a);
    if Interchangeable(a, b) {
      assert x.calls == acc.calls[p := x.calls[p]] && y.calls == acc.calls[p := y.calls[p]];
      assert x.announced == y.announced;
    }
  }

  /** Landing at a place changes nothing exactly when the fragment is traceless there. */
  lemma LandTraceless(acc: Acc, p: Index, d: Delta)
    ensures Land(acc, p, d) == acc <==> Traceless(acc, p, d)
  {
    var x := Land(acc, p, d);
    assert p in x.calls && x.calls[p] == Merge(CallAt(acc, p), d);
    Unit(CallAt(acc, p).arguments);
    if Traceless(acc, p, d) {
      assert x.calls[p] == acc.calls[p];
      assert x.calls == acc.calls;
      assert x.announced == acc.announced;
    } else if p in acc.calls && x.calls[p] == acc.calls[p] {
      assert d.arguments == "";
      assert x.announced == acc.announced + {p};
    }
  }

  lemma LandElsewhere(acc: Acc, p: Index, q: Index, d: Delta)
    requires p != q
    ensures Land(acc, p, d) == Land(acc, q, d) <==> Traceless(acc, p, d) && Traceless(acc, q, d)
  {
    LandTraceless(acc, p, d);
    LandTraceless(acc, q, d);
    var (x, y) := (Land(acc, p, d), Land(acc, q, d));
    if x == y {
      assert x.calls == acc.calls by {
        forall k ensures (k in x.calls <==> k in acc.calls) && (k in x.calls ==> CallAt(x, k) == CallAt(acc, k)) {
          if k != p {
            assert k in x.calls <==> k in acc.calls;
          } else {
            assert k in y.calls <==> k in acc.calls;
            assert CallAt(y, k) == CallAt(acc, k);
          }
        }
        SameCalls(x.calls, acc.calls);
      }
      assert x.announced == acc.announced;
    }
  }

  lemma SameCalls(x: map<Index, Call>, y: map<Index, Call>)
    requires forall k :: (k in x <==> k in y) && (k in x ==> x[k] == y[k])
    ensures x == y
  {
  }

  lemma Grows(acc: Acc, p: Index, d: Delta)
    ensures |Land(acc, p, d).calls| == |acc.calls| + (if p in acc.calls then 0 else 1)
  {
    assert Land(acc, p, d).calls.Keys == acc.calls.Keys + {p};
  }

  lemma OverwrittenLands(acc: Acc, p: Index, b: Delta, a: Delta)
    requires p !in acc.calls
    ensures Land(Land(acc, p, b), p, a) == Land(acc, p, a) <==> Overwritten(b, a)
  {
    var (x, y) := (Land(Land(acc, p, b), p, a), Land(acc, p, a));
    assert x.calls[p] == Merge(Merge(Call("", "", ""), b), a) && y.calls[p] == Merge(Call("", "", ""), a);
    Unit(a.arguments);
    Unit(b.arguments);
    assert b.arguments + a.arguments == a.arguments <==> b.arguments == "";
    if Overwritten(b, a) {
      assert x.calls == acc.calls[p := x.calls[p]] && y.calls == acc.calls[p := y.calls[p]];
      assert x.announced == y.announced;
    }
  }

  lemma DisplacedExact(acc: Acc, a: Delta, b: Delta)
    requires Displaces(acc, a, b)
    ensures Ingest1(Ingest1(acc, a), b) == Ingest1(Ingest1(acc, b), a) <==> Harmless(acc, a, b)
  {
    var (p, k, next) := (a.index.value, Index(|acc.calls|), Index(|acc.calls| + 1));
    var x := Land(acc, p, a);
    Grows(acc, p, a);
    IngestLands(acc, a);
    IngestLands(x, b);
    IngestLands(acc, b);
    IngestLands(Land(acc, k, b), a);
    if p == k {
      var y := Land(Land(acc, k, b), k, a);
      OverwrittenLands(acc, k, b, a);
      LandTraceless(x, next, b);
      assert CallAt(Land(x, next, b), k) == CallAt(x, k);
      if y != x {
        DiffersAt(acc, k, b, a);
      }
    } else {
      LandApart(acc, p, a, k, b);
      LandElsewhere(x, next, k, b);
    }
  }

  lemma DiffersAt(acc: Acc, p: Index, b: Delta, a: Delta)
    requires p !in acc.calls && Land(Land(acc, p, b), p, a) != Land(acc, p, a)
    ensures CallAt(Land(Land(acc, p, b), p, a), p) != CallAt(Land(acc, p, a), p)
  {
    OverwrittenLands(acc, p, b, a);
    Unit(a.arguments);
    Unit(b.arguments);
    assert b.arguments + a.arguments == a.arguments <==> b.arguments == "";
  }

  lemma BothNew(acc: Acc, a: Delta, b: Delta)
    requires a.index.None? && b.index.None? && Index(|acc.calls|) !in acc.calls
    ensures Ingest1(Ingest1(acc, a), b) == Ingest1(Ingest1(acc, b), a) <==> a == b
  {
    var (k, next) := (Index(|acc.calls|), Index(|acc.calls| + 1));
    Grows(acc, k, a);
    Grows(acc, k, b);
    Unit(a.arguments);
    Unit(b.arguments);
    assert CallAt(Ingest1(Ingest1(acc, a), b), k) == Call(a.id, a.name, a.arguments);
    assert CallAt(Ingest1(Ingest1(acc, b), a), k) == Call(b.id, b.name, b.arguments);
  }

  lemma PlacesKept(acc: Acc, a: Delta, b: Delta)
    requires !Displaces(acc, a, b) && !(a.index.None? && b.index.None? && Index(|acc.calls|) !in acc.calls)
    ensures Place(Ingest1(acc, a), b) == Place(acc, b)
  {
    Grows(acc, Place(acc, a), a);
  }

  /** For all calls there are and any two fragments: their order makes no difference if and only
      if they commute. */
  lemma CommuteExactly(acc: Acc, a: Delta, b: Delta)
    ensures Ingest1(Ingest1(acc, a), b) == Ingest1(Ingest1(acc, b), a) <==> Commute(acc, a, b)
  {
    if Displaces(acc, a, b) {
      DisplacedExact(acc, a, b);
    } else if Displaces(acc, b, a) {
      DisplacedExact(acc, b, a);
    } else if a.index.None? && b.index.None? && Index(|acc.calls|) !in acc.calls {
      BothNew(acc, a, b);
    } else {
      PlacesKept(acc, a, b);
      PlacesKept(acc, b, a);
      var (p, q) := (Place(acc, a), Place(acc, b));
      IngestLands(acc, a);
      IngestLands(acc, b);
      IngestLands(Land(acc, p, a), b);
      IngestLands(Land(acc, q, b), a);
      if p == q {
        LandTogether(acc, p, a, b);
      } else {
        LandApart(acc, p, a, q, b);
      }
    }
  }

  /** Explicit indices that differ always commute. */
  lemma IndexedCommute(acc: Acc, a: Delta, b: Delta)
    requires a.index.Some? && b.index.Some? && a.index != b.index
    ensures Commute(acc, a, b)
  {
  }

  // ---------- rearranging a delivery ----------

  function Exchanged(ds: seq<Delta>, i: nat): seq<Delta>
    requires i + 1 < |ds|
  {
    ds[i := ds[i + 1]][i + 1 := ds[i]]
  }

  /** Exchanging neighbours that commute where they stand changes nothing that is gathered; at
      the end of a delivery it changes nothing only then. */
  lemma ExchangeExact(ds: seq<Delta>, i: nat)
    requires i + 1 < |ds|
    ensures Commute(Ingest(EMPTY, ds[..i]), ds[i], ds[i + 1]) ==> Ingest(EMPTY, Exchanged(ds, i)) == Ingest(EMPTY, ds)
    ensures i + 2 == |ds| ==>
              (Ingest(EMPTY, Exchanged(ds, i)) == Ingest(EMPTY, ds) <==>
               Commute(Ingest(EMPTY, ds[..i]), ds[i], ds[i + 1]))
  {
    var (pre, a, b, post) := (ds[..i], ds[i], ds[i + 1], ds[i + 2..]);
    ExchangeParts(ds, i);
    IngestThree(pre, a, b, post);
    IngestThree(pre, b, a, post);
    CommuteExactly(Ingest(EMPTY, pre), a, b);
  }

  lemma ExchangeParts(ds: seq<Delta>, i: nat)
    requires i + 1 < |ds|
    ensures ds == ds[..i] + [ds[i], ds[i + 1]] + ds[i + 2..]
    ensures Exchanged(ds, i) == ds[..i] + [ds[i + 1], ds[i]] + ds[i + 2..]
  {
  }

  lemma IngestThree(pre: seq<Delta>, a: Delta, b: Delta, post: seq<Delta>)
    ensures Ingest(EMPTY, pre + [a, b] + post) == Ingest(Ingest1(Ingest1(Ingest(EMPTY, pre), a), b), post)
  {
    IngestConcat(EMPTY, pre + [a, b], post);
    IngestConcat(EMPTY, pre, [a, b]);
    IngestTwo(Ingest(EMPTY, pre), a, b);
  }

  lemma IngestTwo(acc: Acc, a: Delta, b: Delta)
    ensures Ingest(acc, [a, b]) == Ingest1(Ingest1(acc, a), b)
  {
    assert [a, b][..1] == [a] && [a][..0] == [];
    assert Ingest(acc, [a]) == Ingest1(Ingest(acc, []), a);
  }

  /** A delivery after a series of exchanges of neighbours. */
  function Rearranged(ds: seq<Delta>, at: seq<nat>): (r: seq<Delta>)
    ensures |r| == |ds|
  {
    if at == [] then ds
    else
      var r := Rearranged(ds, at[..|at| - 1]);
      if at[|at| - 1] + 1 < |ds| then Exchanged(r, at[|at| - 1]) else r
  }

  /** Each exchange is of two that commute at that moment. */
  predicate Harmonious(ds: seq<Delta>, at: seq<nat>) {
    at == [] ||
    var (r, i) := (Rearranged(ds, at[..|at| - 1]), at[|at| - 1]);
    && Harmonious(ds, at[..|at| - 1])
    && (i + 1 < |ds| ==> Commute(Ingest(EMPTY, r[..i]), r[i], r[i + 1]))
  }

  /** Any delivery reached by such exchanges, with or without indices, gives the same calls and
      the same announced indices. */
  lemma {:induction false} RearrangementIrrelevant(ds: seq<Delta>, at: seq<nat>)
    requires Harmonious(ds, at)
    ensures Ingest(EMPTY, Rearranged(ds, at)) == Ingest(EMPTY, ds)
    ensures Finalized(Ingest(EMPTY, Rearranged(ds, at))) == Finalized(Ingest(EMPTY, ds))
  {
    if at != [] {
      var (r, i) := (Rearranged(ds, at[..|at| - 1]), at[|at| - 1]);
      RearrangementIrrelevant(ds, at[..|at| - 1]);
      if i + 1 < |ds| {
        ExchangeExact(r, i);
      }
    }
  }

  // ---------- whole deliveries, with or without indices ----------

  /** Where a fragment falls when the calls at the given places are there. */
  function Falls(open: set<Index>, d: Delta): Index {
    match d.index
    case Some(index) => index
    case None => Index(|open|)
  }

  /** The places a delivery opens; what the fragments say plays no part. */
  function Opened(ds: seq<Delta>): set<Index> {
    if ds == [] then {} else Opened(ds[..|ds| - 1]) + {Falls(Opened(ds[..|ds| - 1]), ds[|ds| - 1])}
  }

  /** The delivery with every fragment's place written out. */
  function Resolved(ds: seq<Delta>): (r: seq<Delta>)
    ensures |r| == |ds| && Explicit(r)
  {
    if ds == [] then []
    else
      var (front, d) := (ds[..|ds| - 1], ds[|ds| - 1]);
      Resolved(front) + [d.(index := Some(Falls(Opened(front), d)))]
  }

  lemma {:induction false} ResolvedIngest(ds: seq<Delta>)
    ensures Ingest(EMPTY, Resolved(ds)) == Ingest(EMPTY, ds)
    ensures Ingest(EMPTY, ds).calls.Keys == Opened(ds)
  {
    if ds != [] {
      var (front, d) := (ds[..|ds| - 1], ds[|ds| - 1]);
      ResolvedIngest(front);
      var (acc, e) := (Ingest(EMPTY, front), d.(index := Some(Falls(Opened(front), d))));
      FrontOfConcat(Resolved(front), [e]);
      Unit(Resolved(front));
      KeysCount(acc);
      IngestLands(acc, d);
      IngestLands(acc, e);
      assert Land(acc, Place(acc, d), d).calls.Keys == acc.calls.Keys + {Place(acc, d)};
    }
  }

  lemma KeysCount(acc: Acc)
    ensures |acc.calls| == |acc.calls.Keys|
  {
  }

  /** The fragments of a place in two deliveries come to the same call, or both to none. */
  predicate SameCall(x: seq<Delta>, y: seq<Delta>) {
    && (x == [] <==> y == [])
    && LastId(x) == LastId(y) && LastName(x) == LastName(y) && AllArguments(x) == AllArguments(y)
  }

  /** At every place the fragments of two deliveries come to the same call. */
  ghost predicate SamePlaceByPlace(a: seq<Delta>, b: seq<Delta>) {
    forall index :: SameCall(Own(Resolved(a), index), Own(Resolved(b), index))
  }

  lemma PlaceExact(ds: seq<Delta>, index: Index)
    ensures var (acc, own) := (Ingest(EMPTY, ds), Own(Resolved(ds), index));
            && (index in acc.calls <==> own != [])
            && CallAt(acc, index) == Call(LastId(own), LastName(own), AllArguments(own))
            && (index in acc.announced <==> LastName(own) != "")
  {
    ResolvedIngest(ds);
    IngestExact(Resolved(ds), index);
  }

  lemma SamePlacesGather(a: seq<Delta>, b: seq<Delta>)
    requires SamePlaceByPlace(a, b)
    ensures Ingest(EMPTY, a) == Ingest(EMPTY, b)
  {
    var (x, y) := (Ingest(EMPTY, a), Ingest(EMPTY, b));
    forall index
      ensures (index in x.calls <==> index in y.calls) && CallAt(x, index) == CallAt(y, index)
      ensures index in x.announced <==> index in y.announced
    {
      PlaceExact(a, index);
      PlaceExact(b, index);
      assert SameCall(Own(Resolved(a), index), Own(Resolved(b), index));
    }
    SameAcc(x, y);
  }

  /** For any two whole deliveries: they gather the same if and only if at every place their
      fragments come to the same call. */
  lemma DeliveriesAgreeExactly(a: seq<Delta>, b: seq<Delta>)
    ensures Ingest(EMPTY, a) == Ingest(EMPTY, b) <==> SamePlaceByPlace(a, b)
  {
    if SamePlaceByPlace(a, b) {
      SamePlacesGather(a, b);
    } else if Ingest(EMPTY, a) == Ingest(EMPTY, b) {
      forall index ensures SameCall(Own(Resolved(a), index), Own(Resolved(b), index)) {
        PlaceExact(a, index);
        PlaceExact(b, index);
      }
    }
  }

  /** In particular exactly then may neighbours anywhere in a delivery change places. */
  lemma ExchangeAnywhere(ds: seq<Delta>, i: nat)
    requires i + 1 < |ds|
    ensures Ingest(EMPTY, Exchanged(ds, i)) == Ingest(EMPTY, ds) <==> SamePlaceByPlace(Exchanged(ds, i), ds)
  {
    DeliveriesAgreeExactly(Exchanged(ds, i), ds);
  }

  /** An index can be needed: a fragment without one falls on a call that already exists, or
      opens its own, depending on the order. */
  lemma IndexNeeded(a: Delta, b: Delta)
    requires a.index == Some(Index(1)) && b.index.None?
    ensures Ingest(EMPTY, [a, b]).calls.Keys == {Index(1)}
    ensures Ingest(EMPTY, [b, a]).calls.Keys == {Index(0), Index(1)}
  {
    IngestTwo(EMPTY, a, b);
    IngestTwo(EMPTY, b, a);
    Grows(EMPTY, Index(1), a);
    assert Ingest1(EMPTY, a).calls.Keys == {Index(1)};
    assert Ingest1(EMPTY, b).calls.Keys == {Index(0)};
  }

  // ---------- the stream ----------

  /** A line of the stream, already split from the transport and parsed. */
  datatype Line =
    | Ignored                            // not a data line, unreadable, or without choices
    | DoneMark                           // the closing `[DONE]`
    | Failure(text: string)
    | Choice(content: string, reasoning: seq<string>, refusal: string, deltas: seq<Delta>, finish: string)

  datatype Chunk =
    | Final(text: string)
    | Reasoning(text: string)
    | Refusal(text: string)
    | Prepared(name: string)
    | ToolCall(call: Call)
    | Error(text: string)
    | Done(reason: string)

  /** How the response ends after its last line. */
  datatype Ending = Closed | Broken(text: string)

  function Thoughts(reasoning: seq<string>): seq<Chunk> {
    seq(|reasoning|, i requires 0 <= i < |reasoning| => Reasoning(reasoning[i]))
  }

  function Announce(notes: seq<Note>): seq<Chunk> {
    seq(|notes|, i requires 0 <= i < |notes| => Prepared(notes[i].name))
  }

  function ToolChunks(calls: seq<Call>): (r: seq<Chunk>)
    ensures |r| == |calls| && forall i | 0 <= i < |r| :: r[i] == ToolCall(calls[i])
  {
    if calls == [] then [] else ToolChunks(calls[..|calls| - 1]) + [ToolCall(calls[|calls| - 1])]
  }

  function Deliver(acc: Acc): seq<Chunk> {
    ToolChunks(Finalized(acc))
  }

  function DeltasOf(line: Line): seq<Delta> {
    if line.Choice? then line.deltas else []
  }

  predicate Terminates(line: Line) {
    line.DoneMark? || line.Failure? || (line.Choice? && line.finish != "")
  }

  /** The text a line carries. */
  function Lead(line: Line): seq<Chunk> {
    if !line.Choice? then []
    else
      (if line.content != "" then [Final(line.content)] else []) + Thoughts(line.reasoning) +
      (if line.refusal != "" then [Refusal(line.refusal)] else [])
  }

  /** What a line shows before anything that ends the stream. */
  function Shown(acc: Acc, line: Line): seq<Chunk> {
    Lead(line) + Announce(Notes(acc, DeltasOf(line)))
  }

  function Closing(acc: Acc, line: Line): seq<Chunk> {
    match line
    case Ignored => []
    case DoneMark => Deliver(acc) + [Done("")]
    case Failure(text) => [Error(text), Done("error")]
    case Choice(_, _, _, deltas, finish) => if finish != "" then Deliver(Ingest(acc, deltas)) + [Done(finish)] else []
  }

  function Parse(acc: Acc, line: Line): seq<Chunk> {
    Shown(acc, line) + Closing(acc, line)
  }

  /** Chunks up to and including the first one that ends the stream. */
  function UntilDone(chunks: seq<Chunk>): seq<Chunk> {
    if chunks == [] then []
    else if chunks[0].Done? then [chunks[0]]
    else [chunks[0]] + UntilDone(chunks[1..])
  }

  predicate HasDone(chunks: seq<Chunk>) {
    exists i | 0 <= i < |chunks| :: chunks[i].Done?
  }

  function After(ending: Ending): seq<Chunk> {
    match ending
    case Closed => []
    case Broken(text) => [Error(text), Done("error")]
  }

  /** `stream_generate`: chunks line by line, until the first one that is done. */
  function Stream(acc: Acc, lines: seq<Line>, ending: Ending): seq<Chunk>
    decreases lines
  {
    if lines == [] then After(ending)
    else
      var chunks := Parse(acc, lines[0]);
      UntilDone(chunks) +
      (if HasDone(chunks) then [] else Stream(Ingest(acc, DeltasOf(lines[0])), lines[1..], ending))
  }

  // ---------- the stream as a whole ----------

  /** The lines that are read: up to and including the first that ends the stream. */
  function Read(lines: seq<Line>): (r: seq<Line>)
    ensures r <= lines
  {
    if lines == [] then [] else if Terminates(lines[0]) then [lines[0]] else [lines[0]] + Read(lines[1..])
  }

  function AllDeltas(lines: seq<Line>): seq<Delta> {
    if lines == [] then [] else DeltasOf(lines[0]) + AllDeltas(lines[1..])
  }

  function AllShown(acc: Acc, lines: seq<Line>): seq<Chunk>
    decreases lines
  {
    if lines == [] then []
    else Shown(acc, lines[0]) + AllShown(Ingest(acc, DeltasOf(lines[0])), lines[1..])
  }

  datatype End = Finish(reason: string) | Fault(text: string) | Cut

  /** How the stream ends. */
  function EndOf(lines: seq<Line>, ending: Ending): End {
    if lines == [] then (if ending.Broken? then Fault(ending.text) else Cut)
    else match lines[0]
      case Ignored => EndOf(lines[1..], ending)
      case DoneMark => Finish("")
      case Failure(text) => Fault(text)
      case Choice(_, _, _, _, finish) => if finish != "" then Finish(finish) else EndOf(lines[1..], ending)
  }

  function Tail(acc: Acc, end: End): seq<Chunk> {
    match end
    case Finish(reason) => Deliver(acc) + [Done(reason)]
    case Fault(text) => [Error(text), Done("error")]
    case Cut => []
  }

  predicate Quiet(chunks: seq<Chunk>) {
    forall i | 0 <= i < |chunks| :: !chunks[i].Done? && !chunks[i].ToolCall?
  }

  predicate NoDone(chunks: seq<Chunk>) {
    forall i | 0 <= i < |chunks| :: !chunks[i].Done?
  }

  lemma {:induction false} UntilDoneWhole(body: seq<Chunk>, last: Chunk)
    requires NoDone(body) && last.Done?
    ensures UntilDone(body) == body
    ensures UntilDone(body + [last]) == body + [last]
  {
    if body != [] {
      UntilDoneWhole(body[1..], last);
      assert (body + [last])[1..] == body[1..] + [last];
      assert [body[0]] + (body[1..] + [last]) == body + [last];
    } else {
      assert body + [last] == [last];
    }
  }

  lemma ClosingShape(acc: Acc, line: Line)
    ensures Terminates(line) ==>
              && var n := |Closing(acc, line)| - 1;
                 n >= 0 && NoDone(Closing(acc, line)[..n]) && Closing(acc, line)[n].Done?
    ensures Terminates(line) ==> Closing(acc, line) == Tail(Ingest(acc, DeltasOf(line)), EndOf([line], Closed))
    ensures !Terminates(line) ==> Closing(acc, line) == []
  {
  }

  lemma ShownQuiet(acc: Acc, line: Line)
    ensures Quiet(Shown(acc, line)) && NoDone(Shown(acc, line))
  {
  }

  lemma EndsOnce(shown: seq<Chunk>, closing: seq<Chunk>)
    requires NoDone(shown) && closing != [] && NoDone(closing[..|closing| - 1]) && closing[|closing| - 1].Done?
    ensures UntilDone(shown + closing) == shown + closing && HasDone(shown + closing)
  {
    var n := |closing| - 1;
    assert shown + closing == (shown + closing[..n]) + [closing[n]];
    UntilDoneWhole(shown + closing[..n], closing[n]);
    assert (shown + closing)[|shown| + n].Done?;
  }

  /** A line's chunks hold at most one done, as the last of them, and exactly when the line
      ends the stream. */
  lemma ParseShape(acc: Acc, line: Line)
    ensures Quiet(Shown(acc, line))
    ensures UntilDone(Parse(acc, line)) == Parse(acc, line)
    ensures HasDone(Parse(acc, line)) <==> Terminates(line)
    ensures Terminates(line) ==>
              Parse(acc, line) == Shown(acc, line) + Tail(Ingest(acc, DeltasOf(line)), EndOf([line], Closed))
    ensures !Terminates(line) ==> Parse(acc, line) == Shown(acc, line)
  {
    ShownQuiet(acc, line);
    ClosingShape(acc, line);
    if Terminates(line) {
      EndsOnce(Shown(acc, line), Closing(acc, line));
    } else {
      UntilDoneWhole(Shown(acc, line), Done(""));
      assert Shown(acc, line) + [] == Shown(acc, line);
    }
  }

  lemma StreamCons(acc: Acc, line: Line, rest: seq<Line>, ending: Ending)
    ensures var chunks := Parse(acc, line);
            Stream(acc, [line] + rest, ending)
            == UntilDone(chunks) + (if HasDone(chunks) then [] else Stream(Ingest(acc, DeltasOf(line)), rest, ending))
  {
    assert ([line] + rest)[1..] == rest;
  }

  lemma ReadLast(acc: Acc, line: Line, rest: seq<Line>)
    requires Terminates(line)
    ensures Read([line] + rest) == [line]
    ensures AllShown(acc, [line]) == Shown(acc, line)
    ensures AllDeltas([line]) == DeltasOf(line)
  {
    assert [line][1..] == [];
    Unit(DeltasOf(line));
    Unit(Shown(acc, line));
    assert AllDeltas([line]) == DeltasOf(line) + AllDeltas([]);
    assert AllShown(acc, [line]) == Shown(acc, line) + AllShown(Ingest(acc, DeltasOf(line)), []);
  }

  lemma StreamLast(acc: Acc, line: Line, rest: seq<Line>, ending: Ending)
    requires Terminates(line)
    ensures Stream(acc, [line] + rest, ending) == Parse(acc, line)
  {
    ParseShape(acc, line);
    StreamCons(acc, line, rest, ending);
    Unit(Parse(acc, line));
  }

  lemma StreamMore(acc: Acc, line: Line, rest: seq<Line>, ending: Ending)
    requires !Terminates(line)
    ensures var (lines, next) := ([line] + rest, Ingest(acc, DeltasOf(line)));
            && Stream(acc, lines, ending) == Shown(acc, line) + Stream(next, rest, ending)
            && AllShown(acc, Read(lines)) == Shown(acc, line) + AllShown(next, Read(rest))
            && AllDeltas(Read(lines)) == DeltasOf(line) + AllDeltas(Read(rest))
            && EndOf(lines, ending) == EndOf(rest, ending)
  {
    var lines := [line] + rest;
    ParseShape(acc, line);
    assert lines[1..] == rest;
    assert Read(lines) == [line] + Read(rest) && ([line] + Read(rest))[1..] == Read(rest);
  }

  /** The whole stream: what the lines show, in order, then its end, and nothing after it. */
  lemma {:induction false} StreamShape(acc: Acc, lines: seq<Line>, ending: Ending)
    ensures Stream(acc, lines, ending)
            == AllShown(acc, Read(lines)) + Tail(Ingest(acc, AllDeltas(Read(lines))), EndOf(lines, ending))
    ensures Quiet(AllShown(acc, Read(lines)))
    decreases lines
  {
    if lines == [] {
      StreamEmpty(acc, ending);
    } else {
      var (line, rest) := (lines[0], lines[1..]);
      assert lines == [line] + rest;
      ParseShape(acc, line);
      if Terminates(line) {
        StreamLast(acc, line, rest, ending);
        ReadLast(acc, line, rest);
        assert EndOf(lines, ending) == EndOf([line], Closed);
      } else {
        StreamMore(acc, line, rest, ending);
        StreamShape(Ingest(acc, DeltasOf(line)), rest, ending);
        IngestConcat(acc, DeltasOf(line), AllDeltas(Read(rest)));
        var next := Ingest(acc, DeltasOf(line));
        Assoc(Shown(acc, line), AllShown(next, Read(rest)),
              Tail(Ingest(next, AllDeltas(Read(rest))), EndOf(rest, ending)));
      }
    }
  }

  lemma StreamEmpty(acc: Acc, ending: Ending)
    ensures Stream(acc, [], ending)
            == AllShown(acc, Read([])) + Tail(Ingest(acc, AllDeltas(Read([]))), EndOf([], ending))
  {
    assert Ingest(acc, []) == acc;
  }

  function Calls(chunks: seq<Chunk>): seq<Call> {
    if chunks == [] then []
    else Calls(chunks[..|chunks| - 1]) +
         (if chunks[|chunks| - 1].ToolCall? then [chunks[|chunks| - 1].call] else [])
  }

  lemma {:induction false} CallsConcat(a: seq<Chunk>, b: seq<Chunk>)
    ensures Calls(a + b) == Calls(a) + Calls(b)
  {
    if b == [] {
      Unit(a);
      Unit(Calls(a));
    } else {
      var last := b[|b| - 1];
      CallsConcat(a, b[..|b| - 1]);
      FrontOfConcat(a, b);
      Assoc(Calls(a), Calls(b[..|b| - 1]), if last.ToolCall? then [last.call] else []);
    }
  }

  lemma {:induction false} CallsQuiet(chunks: seq<Chunk>)
    requires forall i | 0 <= i < |chunks| :: !chunks[i].ToolCall?
    ensures Calls(chunks) == []
  {
    if chunks != [] {
      CallsQuiet(chunks[..|chunks| - 1]);
    }
  }

  lemma {:induction false} CallsDelivered(calls: seq<Call>)
    ensures Calls(ToolChunks(calls)) == calls
  {
    if calls != [] {
      var (front, last) := (calls[..|calls| - 1], calls[|calls| - 1]);
      CallsDelivered(front);
      FrontOfConcat(ToolChunks(front), [ToolCall(last)]);
      Unit(ToolChunks(front));
      Snoc(calls);
    }
  }

  /** The end of a stream: the delivered calls, if it finishes, and one done at the very end. */
  predicate EndShape(tail: seq<Chunk>, calls: seq<Call>, end: End) {
    && (tail == [] <==> end.Cut?)
    && (tail != [] ==> NoDone(tail[..|tail| - 1]) && tail[|tail| - 1].Done?)
    && (end.Finish? ==> |tail| == |calls| + 1 && forall i | 0 <= i < |calls| :: tail[i] == ToolCall(calls[i]))
  }

  function Delivered(acc: Acc, end: End): seq<Call> {
    if end.Finish? then Finalized(acc) else []
  }

  lemma FinishShape(calls: seq<Call>, reason: string)
    ensures Calls(ToolChunks(calls) + [Done(reason)]) == calls
    ensures EndShape(ToolChunks(calls) + [Done(reason)], calls, Finish(reason))
  {
    CallsConcat(ToolChunks(calls), [Done(reason)]);
    CallsDelivered(calls);
    CallsQuiet([Done(reason)]);
    Unit(calls);
    FrontOfConcat(ToolChunks(calls), [Done(reason)]);
    Unit(ToolChunks(calls));
  }

  lemma FaultShape(text: string)
    ensures Calls([Error(text), Done("error")]) == []
    ensures EndShape([Error(text), Done("error")], [], Fault(text))
  {
    CallsQuiet([Error(text), Done("error")]);
    assert [Error(text), Done("error")][..1] == [Error(text)];
  }

  lemma TailShape(acc: Acc, end: End)
    ensures Calls(Tail(acc, end)) == Delivered(acc, end)
    ensures EndShape(Tail(acc, end), Delivered(acc, end), end)
  {
    match end
    case Finish(reason) => FinishShape(Finalized(acc), reason);
    case Fault(text) => FaultShape(text);
    case Cut =>
  }

  /** Chunks `out` end with the calls and one done, as the way of ending says. */
  predicate DeliveredLast(out: seq<Chunk>, calls: seq<Call>, end: End) {
    && (forall i | 0 <= i < |out| - 1 :: !out[i].Done?)
    && (out != [] && out[|out| - 1].Done? <==> !end.Cut?)
    && (end.Finish? ==>
          && |out| > |calls|
          && (forall i | 0 <= i < |calls| :: out[|out| - 1 - |calls| + i] == ToolCall(calls[i])))
  }

  lemma EndAfterShown(shown: seq<Chunk>, tail: seq<Chunk>, calls: seq<Call>, end: End)
    requires NoDone(shown) && EndShape(tail, calls, end)
    ensures DeliveredLast(shown + tail, calls, end)
  {
    var out := shown + tail;
    forall i | 0 <= i < |out| - 1 ensures !out[i].Done? {
      if i >= |shown| {
        assert tail[..|tail| - 1][i - |shown|] == out[i];
      }
    }
  }

  /** For every stream: a done chunk is the last and the only one; the tool calls stand
      together right before it, each finished call once, and only when the stream finishes. */
  lemma StreamDelivers(lines: seq<Line>, ending: Ending)
    ensures var (out, end) := (Stream(EMPTY, lines, ending), EndOf(lines, ending));
            var calls := Delivered(Ingest(EMPTY, AllDeltas(Read(lines))), end);
            && Calls(out) == calls
            && DeliveredLast(out, calls, end)
  {
    var (shown, end) := (AllShown(EMPTY, Read(lines)), EndOf(lines, ending));
    var acc := Ingest(EMPTY, AllDeltas(Read(lines)));
    StreamShape(EMPTY, lines, ending);
    TailShape(acc, end);
    CallsConcat(shown, Tail(acc, end));
    CallsQuiet(shown);
    Unit(Delivered(acc, end));
    EndAfterShown(shown, Tail(acc, end), Delivered(acc, end), end);
  }

  /** Tool-call streaming does not depend on fragmentation: if two streams end alike and carry
      the same fragments per index in the same order per index, however these are spread over
      lines and interleaved across indices, they deliver the same calls. */
  lemma FragmentationIrrelevant(a: seq<Line>, b: seq<Line>, ending: Ending)
    requires Explicit(AllDeltas(Read(a))) && Explicit(AllDeltas(Read(b)))
    requires SamePerIndex(AllDeltas(Read(a)), AllDeltas(Read(b)))
    requires EndOf(a, ending) == EndOf(b, ending)
    ensures Calls(Stream(EMPTY, a, ending)) == Calls(Stream(EMPTY, b, ending))
  {
    StreamDelivers(a, ending);
    StreamDelivers(b, ending);
    InterleavingIrrelevant(AllDeltas(Read(a)), AllDeltas(Read(b)));
  }

  // ---------- announcements in the stream ----------

  function Names(chunks: seq<Chunk>): seq<string> {
    if chunks == [] then []
    else Names(chunks[..|chunks| - 1]) +
         (if chunks[|chunks| - 1].Prepared? then [chunks[|chunks| - 1].name] else [])
  }

  function NoteNames(notes: seq<Note>): seq<string> {
    seq(|notes|, i requires 0 <= i < |notes| => notes[i].name)
  }

  lemma {:induction false} NamesConcat(a: seq<Chunk>, b: seq<Chunk>)
    ensures Names(a + b) == Names(a) + Names(b)
  {
    if b == [] {
      Unit(a);
      Unit(Names(a));
    } else {
      var last := b[|b| - 1];
      NamesConcat(a, b[..|b| - 1]);
      FrontOfConcat(a, b);
      Assoc(Names(a), Names(b[..|b| - 1]), if last.Prepared? then [last.name] else []);
    }
  }

  lemma {:induction false} NamesNone(chunks: seq<Chunk>)
    requires forall i | 0 <= i < |chunks| :: !chunks[i].Prepared?
    ensures Names(chunks) == []
  {
    if chunks != [] {
      NamesNone(chunks[..|chunks| - 1]);
    }
  }

  lemma {:induction false} NamesAnnounced(notes: seq<Note>)
    ensures Names(Announce(notes)) == NoteNames(notes)
  {
    if notes != [] {
      var front := notes[..|notes| - 1];
      NamesAnnounced(front);
      assert Announce(notes)[..|notes| - 1] == Announce(front);
      assert NoteNames(notes) == NoteNames(front) + [notes[|notes| - 1].name];
    }
  }

  lemma NamesShown(acc: Acc, line: Line)
    ensures Names(Shown(acc, line)) == NoteNames(Notes(acc, DeltasOf(line)))
  {
    NamesConcat(Lead(line), Announce(Notes(acc, DeltasOf(line))));
    NamesNone(Lead(line));
    NamesAnnounced(Notes(acc, DeltasOf(line)));
  }

  lemma NoteNamesConcat(a: seq<Note>, b: seq<Note>)
    ensures NoteNames(a + b) == NoteNames(a) + NoteNames(b)
  {
  }

  lemma {:induction false} NamesAllShown(acc: Acc, lines: seq<Line>)
    ensures Names(AllShown(acc, lines)) == NoteNames(Notes(acc, AllDeltas(lines)))
    decreases lines
  {
    if lines != [] {
      var (ds, more) := (DeltasOf(lines[0]), AllDeltas(lines[1..]));
      var next := Ingest(acc, ds);
      NamesShown(acc, lines[0]);
      NamesAllShown(next, lines[1..]);
      NamesConcat(Shown(acc, lines[0]), AllShown(next, lines[1..]));
      IngestConcat(acc, ds, more);
      NoteNamesConcat(Notes(acc, ds), Notes(next, more));
      assert AllDeltas(lines) == ds + more;
      assert AllShown(acc, lines) == Shown(acc, lines[0]) + AllShown(next, lines[1..]);
    }
  }

  /** Splitting a stream's fragments over lines differently changes no announcement: those
      shown are exactly those of the fragments in order, one for each index that has a name. */
  lemma AnnouncedOnce(lines: seq<Line>, ending: Ending)
    requires Explicit(AllDeltas(Read(lines)))
    ensures var ds := AllDeltas(Read(lines));
            && Names(Stream(EMPTY, lines, ending)) == NoteNames(Notes(EMPTY, ds))
            && forall index :: |NotesAt(Notes(EMPTY, ds), index)| == (if LastName(Own(ds, index)) != "" then 1 else 0)
  {
    StreamNames(lines, ending);
    forall index
      ensures |NotesAt(Notes(EMPTY, AllDeltas(Read(lines))), index)|
              == (if LastName(Own(AllDeltas(Read(lines)), index)) != "" then 1 else 0)
    {
      IngestExact(AllDeltas(Read(lines)), index);
    }
  }

  lemma TailUnprepared(acc: Acc, end: End)
    ensures Names(Tail(acc, end)) == []
  {
    var tail := Tail(acc, end);
    assert forall i | 0 <= i < |tail| :: !tail[i].Prepared?;
    NamesNone(tail);
  }

  lemma StreamNames(lines: seq<Line>, ending: Ending)
    ensures Names(Stream(EMPTY, lines, ending)) == NoteNames(Notes(EMPTY, AllDeltas(Read(lines))))
  {
    var read := Read(lines);
    StreamShape(EMPTY, lines, ending);
    NamesConcat(AllShown(EMPTY, read), Tail(Ingest(EMPTY, AllDeltas(read)), EndOf(lines, ending)));
    TailUnprepared(Ingest(EMPTY, AllDeltas(read)), EndOf(lines, ending));
    NamesAllShown(EMPTY, read);
  }

  // ---------- the code ----------

  class ToolCallAccumulator {
    var calls: map<Index, Call>
    var announced: set<Index>

    constructor ()
      ensures View() == EMPTY
    {
      calls, announced := map[], {};
    }

    function View(): Acc
      reads this
    {
      Acc(calls, announced)
    }

    method TakeOne(d: Delta) returns (notes: seq<Note>)
      modifies this
      ensures View() == Ingest1(old(View()), d)
      ensures notes == NoteOf(old(View()), d)
    {
      notes := [];
      var index := if d.index.Some? then d.index.value else Index(|calls|);
      var call := if index in calls then calls[index] else Call("", "", "");
      if d.id != "" {
        call := call.(id := d.id);
      }
      if d.name != "" {
        call := call.(name := d.name);
      }
      call := call.(arguments := call.arguments + d.arguments);
      calls := calls[index := call];
      if call.name != "" && index !in announced {
        announced := announced + {index};
        notes := [Note(index, call.name)];
      }
    }

    method Take(raw: seq<Delta>) returns (notes: seq<Note>)
      modifies this
      ensures View() == Ingest(old(View()), raw)
      ensures notes == Notes(old(View()), raw)
    {
      notes := [];
      for k := 0 to |raw|
        invariant View() == Ingest(old(View()), raw[..k])
        invariant notes == Notes(old(View()), raw[..k])
      {
        assert raw[..k + 1][..k] == raw[..k];
        var more := TakeOne(raw[k]);
        notes := notes + more;
      }
      assert raw[..|raw|] == raw;
    }

    method ParseLine(line: Line) returns (chunks: seq<Chunk>)
      modifies this
      ensures chunks == Parse(old(View()), line)
      ensures View() == Ingest(old(View()), DeltasOf(line))
    {
      match line {
        case Ignored => chunks := [];
        case DoneMark => chunks := Deliver(View()) + [Done("")];
        case Failure(text) => chunks := [Error(text), Done("error")];
        case Choice(content, reasoning, refusal, deltas, finish) =>
          var lead := [];
          if content != "" {
            lead := lead + [Final(content)];
          }
          lead := lead + Thoughts(reasoning);
          if refusal != "" {
            lead := lead + [Refusal(refusal)];
          }
          assert lead == Lead(line);
          var notes := Take(deltas);
          chunks := lead + Announce(notes);
          if finish != "" {
            chunks := chunks + (Deliver(View()) + [Done(finish)]);
          }
      }
    }
  }

  lemma {:induction false} UntilDoneFirst(chunks: seq<Chunk>, k: nat)
    requires k < |chunks| && NoDone(chunks[..k]) && chunks[k].Done?
    ensures UntilDone(chunks) == chunks[..k + 1]
  {
    if k > 0 {
      assert !chunks[..k][0].Done?;
      assert chunks[1..][..k - 1] == chunks[..k][1..];
      UntilDoneFirst(chunks[1..], k - 1);
      assert [chunks[0]] + chunks[1..][..k] == chunks[..k + 1];
    }
  }

  /** Yields the chunks of one line, stopping after the first that is done. */
  method Emit(before: seq<Chunk>, chunks: seq<Chunk>) returns (out: seq<Chunk>, done: bool)
    ensures out == before + UntilDone(chunks)
    ensures done == HasDone(chunks)
  {
    out := before;
    for j := 0 to |chunks|
      invariant NoDone(chunks[..j]) && out == before + chunks[..j]
    {
      out := out + [chunks[j]];
      assert out == before + chunks[..j + 1];
      if chunks[j].Done? {
        UntilDoneFirst(chunks, j);
        return out, true;
      }
    }
    assert chunks[..|chunks|] == chunks;
    UntilDoneWhole(chunks, Done(""));
    return out, false;
  }

  lemma StreamTurn(acc: Acc, out: seq<Chunk>, lines: seq<Line>, k: nat, ending: Ending)
    requires k < |lines|
    ensures var (chunks, all) := (Parse(acc, lines[k]), out + Stream(acc, lines[k..], ending));
            if HasDone(chunks) then all == out + UntilDone(chunks)
            else all == (out + UntilDone(chunks)) + Stream(Ingest(acc, DeltasOf(lines[k])), lines[k + 1..], ending)
  {
    assert lines[k..] == [lines[k]] + lines[k + 1..];
    StreamCons(acc, lines[k], lines[k + 1..], ending);
    Assoc(out, UntilDone(Parse(acc, lines[k])), Stream(Ingest(acc, DeltasOf(lines[k])), lines[k + 1..], ending));
    Unit(UntilDone(Parse(acc, lines[k])));
  }

  method StreamGenerate(lines: seq<Line>, ending: Ending) returns (out: seq<Chunk>)
    ensures out == Stream(EMPTY, lines, ending)
  {
    var accumulator := new ToolCallAccumulator();
    out := [];
    assert lines[0..] == lines;
    for k := 0 to |lines|
      invariant out + Stream(accumulator.View(), lines[k..], ending) == Stream(EMPTY, lines, ending)
    {
      StreamTurn(accumulator.View(), out, lines, k, ending);
      var chunks := accumulator.ParseLine(lines[k]);
      var done;
      out, done := Emit(out, chunks);
      if done {
        return;
      }
    }
    assert lines[|lines|..] == [];
    out := out + After(ending);
  }
}
