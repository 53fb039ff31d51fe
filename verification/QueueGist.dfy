/**
 What a squashing queue keeps of the items pushed to it: all lifecycle items in order, and
 between two of them the values as one merge.
 */
module QueueGist {
  import opened PvDesc
  import opened Updates
  import opened MonitorQueue

  /** The items with every run of values between lifecycle items merged into one. */
  function Gist(items: seq<Update>): seq<Update> {
    if items == [] then [] else Joined(Gist(items[..|items| - 1]), items[|items| - 1])
  }

  function Joined(gist: seq<Update>, u: Update): seq<Update> {
    if u.ValueUpdate? && TailIsValue(gist) then
      gist[..|gist| - 1] + [ValueUpdate(u.desc, Merge(gist[|gist| - 1].delta, u.delta))]
    else gist + [u]
  }

  lemma GistSnoc(items: seq<Update>, u: Update)
    ensures Gist(items + [u]) == Joined(Gist(items), u)
  {
    assert (items + [u])[..|items|] == items;
  }

  lemma {:induction false} JoinedTwice(gist: seq<Update>, d: FieldDesc, t: Delta, d': FieldDesc, x: Delta)
    ensures Joined(Joined(gist, ValueUpdate(d, t)), ValueUpdate(d', x)) == Joined(gist, ValueUpdate(d', Merge(t, x)))
  {
    if TailIsValue(gist) {
      var g := gist[|gist| - 1].delta;
      assert g.changed + t.changed + x.changed == g.changed + (t.changed + x.changed);
      var once := Joined(gist, ValueUpdate(d, t));
      assert once[..|once| - 1] == gist[..|gist| - 1];
    }
  }

  /** Squashed or not, a pushed value stands in the queue as if it had been put behind the others. */
  lemma {:induction false} GistOfPushed(front: seq<Update>, items: seq<Update>, limit: nat, d: FieldDesc, x: Delta)
    ensures Gist(front + Pushed(items, limit, d, x)) == Gist(front + items + [ValueUpdate(d, x)])
  {
    if CountValues(items) >= limit && TailIsValue(items) {
      var init, tail := items[..|items| - 1], items[|items| - 1];
      assert items == init + [tail];
      assert front + Pushed(items, limit, d, x) == front + init + [ValueUpdate(d, Merge(tail.delta, x))];
      GistSnoc(front + init, ValueUpdate(d, Merge(tail.delta, x)));
      assert front + items == front + init + [tail];
      GistSnoc(front + init, tail);
      GistSnoc(front + items, ValueUpdate(d, x));
      JoinedTwice(Gist(front + init), tail.desc, tail.delta, d, x);
    } else {
      assert front + Pushed(items, limit, d, x) == front + items + [ValueUpdate(d, x)];
    }
  }

  /** Two streams of one gist stay so behind the same item. */
  lemma GistAlike(a: seq<Update>, b: seq<Update>, u: Update)
    requires Gist(a) == Gist(b)
    ensures Gist(a + [u]) == Gist(b + [u])
  {
    GistSnoc(a, u);
    GistSnoc(b, u);
  }

  /** The lifecycle items alone. */
  function LifecycleOf(items: seq<Update>): seq<Update> {
    if items == [] then []
    else LifecycleOf(items[..|items| - 1]) + if items[|items| - 1].ValueUpdate? then [] else [items[|items| - 1]]
  }

  lemma {:induction false} LifecycleConcat(a: seq<Update>, b: seq<Update>)
    ensures LifecycleOf(a + b) == LifecycleOf(a) + LifecycleOf(b)
    decreases |b|
  {
    if b == [] {
      assert a + b == a;
    } else {
      assert (a + b)[..|a + b| - 1] == a + b[..|b| - 1];
      LifecycleConcat(a, b[..|b| - 1]);
    }
  }

  lemma {:induction false} LifecycleOfPushed(items: seq<Update>, limit: nat, d: FieldDesc, x: Delta)
    ensures LifecycleOf(Pushed(items, limit, d, x)) == LifecycleOf(items)
  {
    if CountValues(items) >= limit && TailIsValue(items) {
      var init := items[..|items| - 1];
      assert (init + [ValueUpdate(d, Merge(items[|items| - 1].delta, x))])[..|init|] == init;
    } else {
      assert (items + [ValueUpdate(d, x)])[..|items|] == items;
    }
  }
}
