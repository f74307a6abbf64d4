/** Structural difference of JSON snapshots, when it can be inverted, and its tracker. */
module ContextDiff {
  import opened Text

  /** JSON values; numbers are compared by value and booleans are not numbers. */
  datatype Json =
    | Null
    | Bool(b: bool)
    | Num(x: real)
    | Str(s: string)
    | Arr(items: seq<Json>)
    | Obj(fields: map<string, Json>)

  /** The keys that mark a change. The difference is written for any four markers, because
      reading it backwards swaps them. */
  datatype Labels = Labels(added: string, removed: string, before: string, after: string)

  const STANDARD := Labels("added", "removed", "before", "after")

  predicate Distinct(l: Labels) {
    l.added != l.removed && l.before != l.after
  }

  function Swapped(l: Labels): Labels {
    Labels(l.removed, l.added, l.after, l.before)
  }

  // ---------- the difference ----------

  /** `_diff_values`. */
  function Diff(l: Labels, p: Json, c: Json): Option<Json>
    decreases p, 2
  {
    if p.Obj? && c.Obj? then
      var delta := FieldDiffs(l, p, c, AllKeys(p, c));
      if delta == map[] then None else Some(Obj(delta))
    else if p != c then Some(Obj(map[l.before := p, l.after := c]))
    else None
  }

  function AllKeys(p: Json, c: Json): set<string>
    requires p.Obj? && c.Obj?
  {
    p.fields.Keys + c.fields.Keys
  }

  /** The entries of some of the keys. */
  function FieldDiffs(l: Labels, p: Json, c: Json, keys: set<string>): map<string, Json>
    requires p.Obj? && c.Obj? && keys <= AllKeys(p, c)
    decreases p, 1
  {
    map k | k in keys && FieldDiff(l, p, c, k).Some? :: FieldDiff(l, p, c, k).value
  }

  /** The entry of one key in the difference of two objects. */
  function FieldDiff(l: Labels, p: Json, c: Json, k: string): Option<Json>
    requires p.Obj? && c.Obj? && k in AllKeys(p, c)
    decreases p, 0
  {
    if k !in p.fields then Some(Obj(map[l.added := c.fields[k]]))
    else if k !in c.fields then Some(Obj(map[l.removed := p.fields[k]]))
    else Diff(l, p.fields[k], c.fields[k])
  }

  /** The loop over the union of keys; its order does not show in the resulting object. */
  method DiffValues(l: Labels, p: Json, c: Json) returns (d: Option<Json>)
    ensures d == Diff(l, p, c)
    decreases p
  {
    if p.Obj? && c.Obj? {
      var delta: map<string, Json> := map[];
      var keys := AllKeys(p, c);
      while keys != {}
        invariant keys <= AllKeys(p, c)
        invariant delta == FieldDiffs(l, p, c, AllKeys(p, c) - keys)
        decreases |keys|
      {
        var key :| key in keys;
        AddField(l, p, c, AllKeys(p, c) - keys, key);
        assert AllKeys(p, c) - keys + {key} == AllKeys(p, c) - (keys - {key});
        keys := keys - {key};
        if key !in p.fields {
          delta := delta[key := Obj(map[l.added := c.fields[key]])];
        } else if key !in c.fields {
          delta := delta[key := Obj(map[l.removed := p.fields[key]])];
        } else {
          var child := DiffValues(l, p.fields[key], c.fields[key]);
          if child.Some? {
            delta := delta[key := child.value];
          }
        }
      }
      assert AllKeys(p, c) - {} == AllKeys(p, c);
      return if delta == map[] then None else Some(Obj(delta));
    }
    if p != c {
      return Some(Obj(map[l.before := p, l.after := c]));
    }
    return None;
  }

  lemma AddField(l: Labels, p: Json, c: Json, keys: set<string>, key: string)
    requires p.Obj? && c.Obj? && keys <= AllKeys(p, c) && key in AllKeys(p, c) && key !in keys
    ensures FieldDiffs(l, p, c, keys + {key}) ==
            match FieldDiff(l, p, c, key)
            case Some(v) => FieldDiffs(l, p, c, keys)[key := v]
            case None => FieldDiffs(l, p, c, keys)
  {
  }

  /** Nothing is reported exactly when nothing changed. */
  lemma {:induction false} NoneExactlyEqual(l: Labels, p: Json, c: Json)
    ensures Diff(l, p, c).None? <==> p == c
    decreases p
  {
    if p.Obj? && c.Obj? {
      forall k | k in p.fields && k in c.fields
        ensures FieldDiff(l, p, c, k).None? <==> p.fields[k] == c.fields[k]
      {
        NoneExactlyEqual(l, p.fields[k], c.fields[k]);
      }
      var delta := FieldDiffs(l, p, c, AllKeys(p, c));
      if delta == map[] {
        forall k | k in AllKeys(p, c) ensures k in p.fields && k in c.fields && p.fields[k] == c.fields[k] {
          assert k in delta <==> FieldDiff(l, p, c, k).Some?;
        }
        assert p.fields == c.fields;
      } else {
        var k :| k in delta;
      }
    }
  }

  /** A difference read backwards is the difference of the swapped snapshots. */
  lemma {:induction false} Mirror(l: Labels, p: Json, c: Json)
    requires Distinct(l)
    ensures Diff(Swapped(l), c, p) == Diff(l, p, c)
    decreases p
  {
    if p.Obj? && c.Obj? {
      forall k | k in AllKeys(p, c)
        ensures FieldDiff(Swapped(l), c, p, k) == FieldDiff(l, p, c, k)
      {
        if k in p.fields && k in c.fields {
          Mirror(l, p.fields[k], c.fields[k]);
        }
      }
      assert FieldDiffs(Swapped(l), c, p, AllKeys(c, p)) == FieldDiffs(l, p, c, AllKeys(p, c));
    } else if p != c {
      assert map[l.before := p, l.after := c] == map[l.after := c, l.before := p];
    }
  }

  // ---------- applying a difference ----------

  /** The value of a key after a change: `None` when the key is gone. */
  function AppliedField(l: Labels, p: Json, delta: map<string, Json>, k: string): Option<Json>
    requires p.Obj? && k in p.fields.Keys + delta.Keys
    decreases p, 0
  {
    if k !in delta then Some(p.fields[k])
    else if k !in p.fields then
      if delta[k].Obj? && l.added in delta[k].fields then Some(delta[k].fields[l.added]) else None
    else if delta[k] == Obj(map[l.removed := p.fields[k]]) then None
    else Some(Apply(l, p.fields[k], Some(delta[k])))
  }

  predicate Replaces(l: Labels, p: Json, d: Json) {
    d.Obj? && l.after in d.fields && (!p.Obj? || !d.fields[l.after].Obj?)
  }

  /** The snapshot that a difference leads to from `p`. */
  function Apply(l: Labels, p: Json, d: Option<Json>): Json
    decreases p, 1
  {
    if d.None? || !d.value.Obj? then p
    else if Replaces(l, p, d.value) then d.value.fields[l.after]
    else if p.Obj? then
      Obj(map k | k in p.fields.Keys + d.value.fields.Keys && AppliedField(l, p, d.value.fields, k).Some? ::
            AppliedField(l, p, d.value.fields, k).value)
    else p
  }

  /** Whether some target has difference `d` from `x`, decided from `x` and `d` alone. */
  predicate IsDelta(l: Labels, x: Json, d: Json)
    decreases x
  {
    d.Obj? &&
    if Replaces(l, x, d) then
      d.fields == map[l.before := x, l.after := d.fields[l.after]] && d.fields[l.after] != x
    else
      && x.Obj? && d.fields != map[]
      && forall k | k in d.fields ::
           if k !in x.fields then d.fields[k].Obj? && d.fields[k].fields.Keys == {l.added}
           else d.fields[k] == Obj(map[l.removed := x.fields[k]]) || IsDelta(l, x.fields[k], d.fields[k])
  }

  /** A nested object whose removal looks like a change inside it. */
  predicate Confusable(l: Labels, x: Json) {
    x.Obj? && IsDelta(l, x, Obj(map[l.removed := x]))
  }

  /** No object nested in the snapshot is confusable: what a caller can check beforehand. */
  predicate Unambiguous(l: Labels, p: Json)
    decreases p
  {
    p.Obj? ==> forall k | k in p.fields :: !Confusable(l, p.fields[k]) && Unambiguous(l, p.fields[k])
  }

  /** Every difference has the shape that `IsDelta` describes. */
  lemma {:induction false} DiffIsDelta(l: Labels, p: Json, c: Json)
    requires Distinct(l) && Diff(l, p, c).Some?
    ensures IsDelta(l, p, Diff(l, p, c).value)
    decreases p
  {
    var d := Diff(l, p, c).value;
    if p.Obj? && c.Obj? {
      forall k | k in d.fields
        ensures d.fields[k].Obj?
        ensures if k !in p.fields then d.fields[k].fields.Keys == {l.added}
                else d.fields[k] == Obj(map[l.removed := p.fields[k]]) || IsDelta(l, p.fields[k], d.fields[k])
      {
        assert FieldDiff(l, p, c, k) == Some(d.fields[k]);
        if k in p.fields && k in c.fields {
          DiffIsDelta(l, p.fields[k], c.fields[k]);
        }
      }
    }
  }

  /** Applying anything of that shape leads to a target with exactly that difference. */
  lemma {:induction false} ApplyRealizes(l: Labels, x: Json, d: Json)
    requires Distinct(l) && IsDelta(l, x, d)
    ensures Diff(l, x, Apply(l, x, Some(d))) == Some(d)
    decreases x
  {
    if !Replaces(l, x, d) {
      var y := Apply(l, x, Some(d));
      forall k | k in x.fields.Keys + d.fields.Keys
        ensures k in AllKeys(x, y)
        ensures FieldDiff(l, x, y, k) == if k in d.fields then Some(d.fields[k]) else None
      {
        var applied := AppliedField(l, x, d.fields, k);
        assert k in y.fields <==> applied.Some?;
        if k !in d.fields {
          NoneExactlyEqual(l, x.fields[k], x.fields[k]);
        } else if k !in x.fields {
          var v := d.fields[k].fields;
          assert v.Keys == {l.added} && l.added in v;
          assert v == map[l.added := v[l.added]];
        } else if d.fields[k] != Obj(map[l.removed := x.fields[k]]) {
          ApplyRealizes(l, x.fields[k], d.fields[k]);
        }
      }
      assert AllKeys(x, y) == x.fields.Keys + d.fields.Keys;
      assert FieldDiffs(l, x, y, AllKeys(x, y)) == d.fields;
    }
  }

  /** The decision procedure is exact. */
  lemma IsDeltaExact(l: Labels, x: Json, d: Json)
    requires Distinct(l)
    ensures IsDelta(l, x, d) <==> exists y :: Diff(l, x, y) == Some(d)
  {
    if IsDelta(l, x, d) {
      ApplyRealizes(l, x, d);
    }
    forall y | Diff(l, x, y) == Some(d) ensures IsDelta(l, x, d) {
      DiffIsDelta(l, x, y);
    }
  }

  /** On an unambiguous snapshot, applying the difference gives the current snapshot. */
  lemma {:induction false} ApplyInverts(l: Labels, p: Json, c: Json)
    requires Distinct(l) && Unambiguous(l, p)
    ensures Apply(l, p, Diff(l, p, c)) == c
    decreases p
  {
    NoneExactlyEqual(l, p, c);
    if p.Obj? && c.Obj? && p != c {
      var d := Diff(l, p, c).value;
      forall k | k in p.fields.Keys + d.fields.Keys
        ensures AppliedField(l, p, d.fields, k) == if k in c.fields then Some(c.fields[k]) else None
      {
        ApplyInvertsField(l, p, c, k);
      }
      NotReplaced(l, p, c);
      assert Apply(l, p, Some(d)).fields == c.fields by {
        forall k | k in c.fields ensures k in p.fields.Keys + d.fields.Keys {
          if k !in p.fields {
            assert FieldDiff(l, p, c, k).Some?;
          }
        }
      }
    }
  }

  /** The difference of two objects never reads as a replacement. */
  lemma NotReplaced(l: Labels, p: Json, c: Json)
    requires p.Obj? && c.Obj? && Diff(l, p, c).Some?
    ensures !Replaces(l, p, Diff(l, p, c).value)
  {
    var d := Diff(l, p, c).value;
    if l.after in d.fields {
      assert FieldDiff(l, p, c, l.after) == Some(d.fields[l.after]);
      EntryIsObject(l, p, c, l.after);
    }
  }

  lemma EntryIsObject(l: Labels, p: Json, c: Json, k: string)
    requires p.Obj? && c.Obj? && k in AllKeys(p, c) && FieldDiff(l, p, c, k).Some?
    ensures FieldDiff(l, p, c, k).value.Obj?
  {
    if k in p.fields && k in c.fields {
      assert FieldDiff(l, p, c, k) == Diff(l, p.fields[k], c.fields[k]);
    }
  }

  /** A key's own change reads back correctly. */
  lemma {:induction false} ApplyInvertsField(l: Labels, p: Json, c: Json, k: string)
    requires Distinct(l) && Unambiguous(l, p) && p.Obj? && c.Obj? && Diff(l, p, c).Some?
    requires k in p.fields.Keys + Diff(l, p, c).value.fields.Keys
    ensures AppliedField(l, p, Diff(l, p, c).value.fields, k) == if k in c.fields then Some(c.fields[k]) else None
    decreases p, 0
  {
    var d := Diff(l, p, c).value;
    assert k in d.fields <==> FieldDiff(l, p, c, k).Some?;
    if k in p.fields && k in c.fields {
      NoneExactlyEqual(l, p.fields[k], c.fields[k]);
      if k in d.fields {
        var x := p.fields[k];
        assert Diff(l, x, c.fields[k]) == Some(d.fields[k]);
        DiffIsDelta(l, x, c.fields[k]);
        assert !Confusable(l, x);
        assert d.fields[k] != Obj(map[l.removed := x]);
        ApplyInverts(l, x, c.fields[k]);
      } else {
        assert AppliedField(l, p, d.fields, k) == Some(p.fields[k]);
      }
    } else if k in c.fields {
      assert FieldDiff(l, p, c, k) == Some(Obj(map[l.added := c.fields[k]]));
    } else {
      assert FieldDiff(l, p, c, k) == Some(Obj(map[l.removed := p.fields[k]]));
    }
  }

  // ---------- exactly when a difference determines its target ----------

  /** An ambiguous snapshot has two different targets with one difference. */
  lemma {:induction false} Ambiguity(l: Labels, p: Json) returns (c: Json, e: Json)
    requires Distinct(l) && p.Obj? && !Unambiguous(l, p)
    ensures c.Obj? && e.Obj? && c != e && Diff(l, p, c) == Diff(l, p, e)
    decreases p
  {
    var k :| k in p.fields && (Confusable(l, p.fields[k]) || !Unambiguous(l, p.fields[k]));
    var x := p.fields[k];
    if Confusable(l, x) {
      c, e := ConfusedTargets(l, p, k);
    } else {
      var y, z := Ambiguity(l, x);
      c, e := Obj(p.fields[k := y]), Obj(p.fields[k := z]);
      assert c.fields[k] == y && e.fields[k] == z;
      SameField(l, p, c, e, k);
    }
  }

  /** A removal marker as a change of `x`, or the removal of `x`. */
  lemma ConfusedTargets(l: Labels, p: Json, k: string) returns (c: Json, e: Json)
    requires Distinct(l) && p.Obj? && k in p.fields && Confusable(l, p.fields[k])
    ensures c.Obj? && e.Obj? && c != e && Diff(l, p, c) == Diff(l, p, e)
  {
    var x := p.fields[k];
    var d := Obj(map[l.removed := x]);
    ApplyRealizes(l, x, d);
    c, e := Obj(p.fields - {k}), Obj(p.fields[k := Apply(l, x, Some(d))]);
    assert k in e.fields && k !in c.fields;
    SameField(l, p, c, e, k);
  }

  /** Two changes of one key with equal entries have equal differences. */
  lemma SameField(l: Labels, p: Json, c: Json, e: Json, k: string)
    requires p.Obj? && c.Obj? && e.Obj? && k in p.fields
    requires p.fields - {k} == c.fields - {k} == e.fields - {k}
    requires FieldDiff(l, p, c, k) == FieldDiff(l, p, e, k)
    ensures Diff(l, p, c) == Diff(l, p, e)
  {
    OneKeyChanged(l, p, c, k);
    OneKeyChanged(l, p, e, k);
  }

  lemma OneKeyChanged(l: Labels, p: Json, c: Json, k: string)
    requires p.Obj? && c.Obj? && k in p.fields && p.fields - {k} == c.fields - {k}
    ensures Diff(l, p, c) ==
            if FieldDiff(l, p, c, k).Some? then Some(Obj(map[k := FieldDiff(l, p, c, k).value])) else None
  {
    forall j | j in AllKeys(p, c) && j != k ensures FieldDiff(l, p, c, j).None? {
      assert j in p.fields - {k} <==> j in c.fields - {k};
      assert (p.fields - {k})[j] == (c.fields - {k})[j];
      NoneExactlyEqual(l, p.fields[j], c.fields[j]);
    }
    var delta := FieldDiffs(l, p, c, AllKeys(p, c));
    assert k in delta <==> FieldDiff(l, p, c, k).Some?;
    if k in delta {
      assert delta == map[k := FieldDiff(l, p, c, k).value];
    } else {
      assert delta == map[];
    }
  }

  /** For every snapshot: its differences determine their targets if and only if it is
      unambiguous, and then applying a difference gives the target. */
  lemma DeterminedExactly(l: Labels, p: Json)
    requires Distinct(l) && p.Obj?
    ensures Unambiguous(l, p) <==>
            forall c: Json, e: Json | c.Obj? && e.Obj? && Diff(l, p, c) == Diff(l, p, e) :: c == e
    ensures Unambiguous(l, p) <==> forall c: Json | c.Obj? :: Apply(l, p, Diff(l, p, c)) == c
  {
    if Unambiguous(l, p) {
      forall c: Json | c.Obj? ensures Apply(l, p, Diff(l, p, c)) == c {
        ApplyInverts(l, p, c);
      }
    } else {
      var c, e := Ambiguity(l, p);
      assert Apply(l, p, Diff(l, p, c)) == Apply(l, p, Diff(l, p, e));
    }
  }

  /** Reading a difference backwards: from the current snapshot to the previous one. */
  lemma UnapplyInverts(l: Labels, p: Json, c: Json)
    requires Distinct(l) && Unambiguous(Swapped(l), c)
    ensures Apply(Swapped(l), c, Diff(l, p, c)) == p
  {
    Mirror(l, p, c);
    ApplyInverts(Swapped(l), c, p);
  }

  /** No object key, at any depth outside arrays, is one of the four markers. */
  predicate AvoidsMarkers(l: Labels, p: Json)
    decreases p
  {
    p.Obj? ==>
      forall k | k in p.fields :: k !in [l.added, l.removed, l.before, l.after] && AvoidsMarkers(l, p.fields[k])
  }

  lemma {:induction false} AvoidingIsUnambiguous(l: Labels, p: Json)
    requires Distinct(l) && AvoidsMarkers(l, p)
    ensures Unambiguous(l, p)
    decreases p
  {
    if p.Obj? {
      forall k | k in p.fields ensures !Confusable(l, p.fields[k]) && Unambiguous(l, p.fields[k]) {
        var x := p.fields[k];
        AvoidingIsUnambiguous(l, x);
        var d := Obj(map[l.removed := x]);
        if x.Obj? {
          assert l.removed in d.fields && l.removed !in x.fields && l.added !in x.fields;
          assert d.fields[l.removed] == x;
        }
      }
    }
  }

  /** Snapshots without marker keys: the difference can be applied and un-applied. */
  lemma PlainSnapshotsInvert(p: Json, c: Json)
    requires AvoidsMarkers(STANDARD, p) && AvoidsMarkers(STANDARD, c)
    ensures Apply(STANDARD, p, Diff(STANDARD, p, c)) == c
    ensures Apply(Swapped(STANDARD), c, Diff(STANDARD, p, c)) == p
  {
    AvoidingIsUnambiguous(STANDARD, p);
    ApplyInverts(STANDARD, p, c);
    SwappedMarkers(STANDARD, c);
    AvoidingIsUnambiguous(Swapped(STANDARD), c);
    UnapplyInverts(STANDARD, p, c);
  }

  lemma {:induction false} SwappedMarkers(l: Labels, p: Json)
    requires AvoidsMarkers(l, p)
    ensures AvoidsMarkers(Swapped(l), p)
    decreases p
  {
    if p.Obj? {
      forall k | k in p.fields ensures AvoidsMarkers(Swapped(l), p.fields[k]) {
        SwappedMarkers(l, p.fields[k]);
      }
    }
  }

  /** The restriction is needed: two targets of one snapshot share their difference. */
  lemma SharedDifference(l: Labels, k: string, w: Json)
    requires Distinct(l)
    ensures var p := Obj(map[k := Obj(map[l.added := w])]);
            var (c, e) := (Obj(map[]), Obj(map[k := Obj(map[l.added := w, l.removed := w])]));
            c != e && Diff(l, p, c) == Diff(l, p, e)
  {
    var x, y := Obj(map[l.added := w]), Obj(map[l.added := w, l.removed := w]);
    var p, c, e := Obj(map[k := x]), Obj(map[]), Obj(map[k := y]);
    assert k in e.fields && k !in c.fields;
    OneKeyChanged(l, p, c, k);
    assert p.fields - {k} == e.fields - {k};
    OneKeyChanged(l, p, e, k);
    assert x.fields - {l.removed} == y.fields - {l.removed} == x.fields;
    assert FieldDiff(l, x, y, l.removed) == Some(Obj(map[l.added := w]));
    assert FieldDiffs(l, x, y, AllKeys(x, y)) == map[l.removed := x] by {
      NoneExactlyEqual(l, w, w);
    }
  }

  // ---------- the tracker ----------

  type Snapshot = map<string, Json>

  datatype Change = Change(initial: bool, changes: Snapshot)

  /** `ContextDiffTracker.diff`, without the fingerprints. */
  function Compare(previous: Option<Snapshot>, current: Snapshot): Change {
    match previous
    case None => Change(true, current)
    case Some(p) =>
      var raw := Diff(STANDARD, Obj(p), Obj(current));
      Change(false, if raw.Some? && raw.value.Obj? then raw.value.fields else map[])
  }

  /** The changes of a run of the tracker from a baseline. */
  function Tracked(baseline: Option<Snapshot>, snapshots: seq<Snapshot>): seq<Change>
    decreases |snapshots|
  {
    if snapshots == [] then []
    else [Compare(baseline, snapshots[0])] + Tracked(Some(snapshots[0]), snapshots[1..])
  }

  /** Rebuilding a baseline from recorded changes alone. */
  function Rebuilt(baseline: Option<Snapshot>, changes: seq<Change>): Option<Snapshot>
    decreases |changes|
  {
    if changes == [] then baseline
    else
      var change := changes[0];
      var next :=
        if change.initial || baseline.None? then Some(change.changes)
        else if change.changes == map[] then baseline
        else
          var applied := Apply(STANDARD, Obj(baseline.value), Some(Obj(change.changes)));
          if applied.Obj? then Some(applied.fields) else None;
      Rebuilt(next, changes[1..])
  }

  predicate AllUnambiguous(baseline: Option<Snapshot>, snapshots: seq<Snapshot>) {
    && (baseline.Some? ==> Unambiguous(STANDARD, Obj(baseline.value)))
    && forall i | 0 <= i < |snapshots| :: Unambiguous(STANDARD, Obj(snapshots[i]))
  }

  /** Replaying the recorded changes of any run rebuilds the tracker's baseline. */
  lemma {:induction false} ReplayRebuilds(baseline: Option<Snapshot>, snapshots: seq<Snapshot>)
    requires AllUnambiguous(baseline, snapshots)
    ensures Rebuilt(baseline, Tracked(baseline, snapshots)) ==
            if snapshots == [] then baseline else Some(snapshots[|snapshots| - 1])
    decreases |snapshots|
  {
    if snapshots != [] {
      var current, changes := snapshots[0], Tracked(baseline, snapshots);
      assert changes[1..] == Tracked(Some(current), snapshots[1..]);
      if baseline.Some? {
        var p := Obj(baseline.value);
        ApplyInverts(STANDARD, p, Obj(current));
        NoneExactlyEqual(STANDARD, p, Obj(current));
      }
      assert Unambiguous(STANDARD, Obj(snapshots[0]));
      ReplayRebuilds(Some(current), snapshots[1..]);
    }
  }

  class ContextDiffTracker {
    var baseline: Option<Snapshot>

    constructor (baseline: Option<Snapshot>)
      ensures this.baseline == baseline
    {
      this.baseline := baseline;
    }

    method SetBaseline(baseline: Option<Snapshot>)
      modifies this
      ensures this.baseline == baseline
    {
      this.baseline := baseline;
    }

    /** `compute`: the change since the last call; the baseline advances. A change is
        reported as empty exactly when the snapshot equals the baseline. */
    method Compute(current: Snapshot) returns (change: Change)
      modifies this
      ensures change == Compare(old(baseline), current)
      ensures baseline == Some(current)
      ensures !change.initial && change.changes == map[] <==> old(baseline) == Some(current)
    {
      if baseline.None? {
        change := Change(true, current);
      } else {
        var raw := DiffValues(STANDARD, Obj(baseline.value), Obj(current));
        change := Change(false, if raw.Some? && raw.value.Obj? then raw.value.fields else map[]);
        NoneExactlyEqual(STANDARD, Obj(baseline.value), Obj(current));
      }
      baseline := Some(current);
    }
  }

  /** A tracker over a series of turns: its recorded changes alone rebuild its baseline. */
  method Track(baseline: Option<Snapshot>, snapshots: seq<Snapshot>)
    returns (changes: seq<Change>, last: Option<Snapshot>)
    ensures changes == Tracked(baseline, snapshots)
    ensures last == if snapshots == [] then baseline else Some(snapshots[|snapshots| - 1])
    ensures AllUnambiguous(baseline, snapshots) ==> Rebuilt(baseline, changes) == last
  {
    var tracker := new ContextDiffTracker(None);
    tracker.SetBaseline(baseline);
    changes := [];
    assert snapshots[0..] == snapshots;
    for i := 0 to |snapshots|
      invariant changes + Tracked(tracker.baseline, snapshots[i..]) == Tracked(baseline, snapshots)
      invariant tracker.baseline == if i == 0 then baseline else Some(snapshots[i - 1])
    {
      assert snapshots[i..][1..] == snapshots[i + 1..];
      ghost var rest := Tracked(Some(snapshots[i]), snapshots[i + 1..]);
      var change := tracker.Compute(snapshots[i]);
      Assoc(changes, [change], rest);
      changes := changes + [change];
    }
    Unit(changes);
    last := tracker.baseline;
    if AllUnambiguous(baseline, snapshots) {
      ReplayRebuilds(baseline, snapshots);
    }
  }
}
