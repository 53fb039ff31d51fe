/**
 Streams of partial updates: what replaying them means, and the tail squash both
 bounded queues of the delivery path use (newest value, changed sets united).
 */
module Updates {
  import opened PvDesc
  import opened PvValue

  /** A value together with the bits that say which part of it is news. */
  datatype Delta = Delta(changed: set<nat>, value: PvField)

  function Apply(d: FieldDesc, delta: Delta, base: PvField): PvField {
    Overlay(d, delta.changed, delta.value, base)
  }

  /** `base` overlaid with each update in order, each restricted to its marks. */
  function Replay(d: FieldDesc, base: PvField, ds: seq<Delta>): PvField {
    if ds == [] then base
    else Apply(d, ds[|ds| - 1], Replay(d, base, ds[..|ds| - 1]))
  }

  predicate DeltasConform(d: FieldDesc, ds: seq<Delta>) {
    forall i | 0 <= i < |ds| :: Conforms(d, ds[i].value)
  }

  /** The update's value differs from `prev` inside its marks only. */
  predicate Moves(d: FieldDesc, prev: PvField, delta: Delta) {
    Apply(d, delta, prev) == delta.value
  }

  /** Each update moves from the value before it. */
  predicate Chain(d: FieldDesc, ds: seq<Delta>) {
    forall i | 1 <= i < |ds| :: Moves(d, ds[i - 1].value, ds[i])
  }

  function Merge(older: Delta, newer: Delta): Delta {
    Delta(older.changed + newer.changed, newer.value)
  }

  /** One update standing for all of `ds`: the last value, every changed bit. */
  function MergeAll(ds: seq<Delta>): Delta
    requires ds != []
  {
    if |ds| == 1 then ds[0] else Merge(MergeAll(ds[..|ds| - 1]), ds[|ds| - 1])
  }

  function SquashTail(q: seq<Delta>, x: Delta): seq<Delta>
    requires q != []
  {
    q[..|q| - 1] + [Merge(q[|q| - 1], x)]
  }

  /** A subscriber's ring: a full one folds a newer update into its tail. */
  function RingPost(limit: nat, ring: seq<Delta>, x: Delta): seq<Delta> {
    if |ring| >= limit && ring != [] then SquashTail(ring, x) else ring + [x]
  }

  lemma {:induction false} ReplayConforms(d: FieldDesc, base: PvField, ds: seq<Delta>)
    requires Conforms(d, base) && DeltasConform(d, ds)
    ensures Conforms(d, Replay(d, base, ds))
    decreases |ds|
  {
    if ds != [] {
      var init := ds[..|ds| - 1];
      ReplayConforms(d, base, init);
      FillConforms(d, ds[|ds| - 1].changed, 0, ds[|ds| - 1].value, Replay(d, base, init));
    }
  }

  lemma {:induction false} ReplayConcat(d: FieldDesc, base: PvField, a: seq<Delta>, b: seq<Delta>)
    ensures Replay(d, base, a + b) == Replay(d, Replay(d, base, a), b)
    decreases |b|
  {
    if b == [] {
      assert a + b == a;
    } else {
      assert (a + b)[..|a + b| - 1] == a + b[..|b| - 1];
      ReplayConcat(d, base, a, b[..|b| - 1]);
    }
  }

  lemma {:induction false} ReplaySnoc(d: FieldDesc, base: PvField, a: seq<Delta>, x: Delta)
    ensures Replay(d, base, a + [x]) == Apply(d, x, Replay(d, base, a))
  {
    assert (a + [x])[..|a|] == a;
  }

  /** Squashing into the tail loses nothing, provided the newcomer moved from the tail's value. */
  lemma {:induction false} ReplaySquash(d: FieldDesc, base: PvField, q: seq<Delta>, x: Delta)
    requires WellFormed(d) && Conforms(d, base) && DeltasConform(d, q) && Conforms(d, x.value)
    requires q != [] && Moves(d, q[|q| - 1].value, x)
    ensures DeltasConform(d, SquashTail(q, x))
    ensures Replay(d, base, SquashTail(q, x)) == Replay(d, base, q + [x])
  {
    var init := q[..|q| - 1];
    var tail := q[|q| - 1];
    assert q == init + [tail];
    ReplayConforms(d, base, init);
    var b := Replay(d, base, init);
    SquashLaw(d, tail.changed, x.changed, b, tail.value, x.value);
    ReplaySnoc(d, base, init, Merge(tail, x));
    ReplaySnoc(d, base, q, x);
  }

  lemma {:induction false} MergeAllLast(ds: seq<Delta>)
    requires ds != []
    ensures MergeAll(ds).value == ds[|ds| - 1].value
    ensures forall b :: b in MergeAll(ds).changed <==> exists i | 0 <= i < |ds| :: b in ds[i].changed
    decreases |ds|
  {
    if |ds| > 1 {
      MergeAllLast(ds[..|ds| - 1]);
      var merged := MergeAll(ds[..|ds| - 1]);
      forall b
        ensures b in MergeAll(ds).changed <==> exists i | 0 <= i < |ds| :: b in ds[i].changed
      {
        if b in merged.changed {
          var i :| 0 <= i < |ds| - 1 && b in ds[..|ds| - 1][i].changed;
          assert b in ds[i].changed;
        }
        if i :| 0 <= i < |ds| && b in ds[i].changed && b !in ds[|ds| - 1].changed {
          assert b in ds[..|ds| - 1][i].changed;
        }
      }
    }
  }

  /** Merging a whole chained run loses nothing. */
  lemma {:induction false} ReplayMergeAll(d: FieldDesc, base: PvField, ds: seq<Delta>)
    requires WellFormed(d) && Conforms(d, base) && DeltasConform(d, ds) && ds != [] && Chain(d, ds)
    ensures Conforms(d, MergeAll(ds).value)
    ensures Replay(d, base, [MergeAll(ds)]) == Replay(d, base, ds)
    decreases |ds|
  {
    if |ds| == 1 {
      assert ds == [MergeAll(ds)];
    } else {
      var init := ds[..|ds| - 1];
      var x := ds[|ds| - 1];
      forall i | 1 <= i < |init| ensures Moves(d, init[i - 1].value, init[i]) {
        assert Moves(d, ds[i - 1].value, ds[i]);
      }
      ReplayMergeAll(d, base, init);
      MergeAllLast(init);
      assert Moves(d, ds[|ds| - 2].value, ds[|ds| - 1]);
      var merged := [MergeAll(init)];
      ReplaySquash(d, base, merged, x);
      assert SquashTail(merged, x) == [MergeAll(ds)];
      ReplaySnoc(d, base, merged, x);
    }
  }
}
