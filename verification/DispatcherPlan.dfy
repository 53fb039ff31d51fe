/**
 `Dispatcher.plan` of `python/repics/_monitor.py`: one pass over a batch that pairs
 items with their subscriptions and collapses each run of values into its last one, unless
 the subscription asked for every update.
 */
module DispatcherPlan {

  /** `kind` 0 is a value in both hubs. */
  datatype Item = Item(sid: nat, kind: nat, payload: int)

  const KIND_VALUE: nat := 0

  predicate IsValue(x: Item) {
    x.kind == KIND_VALUE
  }

  // ---- The specification ----

  /** One subscription's items. */
  function Project(items: seq<Item>, sid: nat): seq<Item> {
    if items == [] then []
    else
      Project(items[..|items| - 1], sid)
      + if items[|items| - 1].sid == sid then [items[|items| - 1]] else []
  }

  /** The items of the subscriptions in the table. */
  function Known(items: seq<Item>, subs: map<nat, bool>): seq<Item> {
    if items == [] then []
    else
      Known(items[..|items| - 1], subs)
      + if items[|items| - 1].sid in subs then [items[|items| - 1]] else []
  }

  function NonValues(items: seq<Item>): seq<Item> {
    if items == [] then []
    else
      NonValues(items[..|items| - 1])
      + if IsValue(items[|items| - 1]) then [] else [items[|items| - 1]]
  }

  predicate EndsInValue(items: seq<Item>) {
    items != [] && IsValue(items[|items| - 1])
  }

  /** Every run of values replaced by its last. */
  function Collapse(items: seq<Item>): seq<Item> {
    if items == [] then []
    else
      var init, last := items[..|items| - 1], items[|items| - 1];
      if IsValue(last) && EndsInValue(init) && Collapse(init) != [] then
        Collapse(init)[..|Collapse(init)| - 1] + [last]
      else Collapse(init) + [last]
  }

  /** What a subscription should get of a batch; the table says which want every update. */
  function Wanted(items: seq<Item>, subs: map<nat, bool>, sid: nat): seq<Item> {
    if sid !in subs then []
    else if subs[sid] then Project(items, sid)
    else Collapse(Project(items, sid))
  }

  /** A run of values behind anything else becomes its last value. */
  lemma {:induction false} RunBecomesLast(front: seq<Item>, run: seq<Item>)
    requires !EndsInValue(front) && run != [] && forall i | 0 <= i < |run| :: IsValue(run[i])
    ensures Collapse(front + run) == Collapse(front) + [run[|run| - 1]]
    decreases |run|
  {
    var all := front + run;
    if |run| == 1 {
      assert all[..|all| - 1] == front;
    } else {
      var shorter := run[..|run| - 1];
      assert all[..|all| - 1] == front + shorter;
      RunBecomesLast(front, shorter);
    }
  }

  lemma {:induction false} CollapseNonEmpty(items: seq<Item>)
    requires items != []
    ensures Collapse(items) != [] && Collapse(items)[|Collapse(items)| - 1] == items[|items| - 1]
  {
  }

  lemma {:induction false} CollapseAppend(items: seq<Item>, x: Item)
    ensures !IsValue(x) || !EndsInValue(items) ==> Collapse(items + [x]) == Collapse(items) + [x]
    ensures IsValue(x) && EndsInValue(items) ==>
              Collapse(items) != [] && Collapse(items + [x]) == Collapse(items)[..|Collapse(items)| - 1] + [x]
  {
    assert (items + [x])[..|items|] == items;
    if items != [] {
      CollapseNonEmpty(items);
    }
  }

  /** Anything but a value is kept where it is and ends the runs on both sides, which collapse each
      by itself. */
  lemma {:induction false} NonValueIsKept(front: seq<Item>, x: Item, back: seq<Item>)
    requires !IsValue(x)
    ensures Collapse(front + [x] + back) == Collapse(front) + [x] + Collapse(back)
    decreases |back|
  {
    if back == [] {
      assert front + [x] + back == front + [x];
      CollapseAppend(front, x);
    } else {
      var init, last := back[..|back| - 1], back[|back| - 1];
      NonValueIsKept(front, x, init);
      KeptStep(front + [x], Collapse(front) + [x], init, last);
      assert init + [last] == back;
      assert front + [x] + back == front + [x] + init + [last];
    }
  }

  /** One more item behind a split that holds. */
  lemma {:induction false} KeptStep(before: seq<Item>, collapsed: seq<Item>, init: seq<Item>, last: Item)
    requires Collapse(before + init) == collapsed + Collapse(init)
    requires before != [] && !IsValue(before[|before| - 1])
    ensures Collapse(before + init + [last]) == collapsed + Collapse(init + [last])
  {
    CollapseAppend(before + init, last);
    CollapseAppend(init, last);
    EndOfBoth(before, init);
    if IsValue(last) && EndsInValue(init) {
      LastReplaced(collapsed, Collapse(init), last);
    }
  }

  lemma EndOfBoth(before: seq<Item>, init: seq<Item>)
    requires before != [] && !IsValue(before[|before| - 1])
    ensures EndsInValue(before + init) <==> EndsInValue(init)
  {
    if init == [] {
      assert before + init == before;
    }
  }

  lemma LastReplaced(a: seq<Item>, b: seq<Item>, x: Item)
    requires b != []
    ensures (a + b)[..|a + b| - 1] + [x] == a + (b[..|b| - 1] + [x])
  {
  }

  // ---- Steps of the pass ----

  lemma {:induction false} ProjectConcat(a: seq<Item>, b: seq<Item>, sid: nat)
    ensures Project(a + b, sid) == Project(a, sid) + Project(b, sid)
    decreases |b|
  {
    if b == [] {
      assert a + b == a;
    } else {
      assert (a + b)[..|a + b| - 1] == a + b[..|b| - 1];
      ProjectConcat(a, b[..|b| - 1], sid);
    }
  }

  lemma {:induction false} NonValuesConcat(a: seq<Item>, b: seq<Item>)
    ensures NonValues(a + b) == NonValues(a) + NonValues(b)
    decreases |b|
  {
    if b == [] {
      assert a + b == a;
    } else {
      assert (a + b)[..|a + b| - 1] == a + b[..|b| - 1];
      NonValuesConcat(a, b[..|b| - 1]);
    }
  }

  lemma {:induction false} Snoc(items: seq<Item>, x: Item, subs: map<nat, bool>, sid: nat)
    ensures Project(items + [x], sid) == if x.sid == sid then Project(items, sid) + [x] else Project(items, sid)
    ensures Known(items + [x], subs) == if x.sid in subs then Known(items, subs) + [x] else Known(items, subs)
    ensures NonValues(items + [x]) == if IsValue(x) then NonValues(items) else NonValues(items) + [x]
  {
    assert (items + [x])[..|items|] == items;
  }

  lemma {:induction false} ProjectNone(items: seq<Item>, sid: nat)
    requires forall k | 0 <= k < |items| :: items[k].sid != sid
    ensures Project(items, sid) == []
    decreases |items|
  {
    if items != [] {
      ProjectNone(items[..|items| - 1], sid);
    }
  }

  lemma {:induction false} OneItem(x: Item, sid: nat)
    ensures Project([x], sid) == if x.sid == sid then [x] else []
    ensures NonValues([x]) == if IsValue(x) then [] else [x]
  {
    assert [x][..0] == [];
  }

  lemma {:induction false} ProjectAround(a: seq<Item>, y: Item, b: seq<Item>, sid: nat)
    requires forall k | 0 <= k < |b| :: b[k].sid != y.sid
    ensures y.sid == sid ==> Project(a + [y] + b, sid) == Project(a, sid) + [y]
    ensures y.sid != sid ==> Project(a + [y] + b, sid) == Project(a, sid) + Project(b, sid)
  {
    ProjectConcat(a + [y], b, sid);
    ProjectConcat(a, [y], sid);
    OneItem(y, sid);
    if y.sid == sid {
      ProjectNone(b, sid);
    }
  }

  /** Overwriting a subscription's last item with another of its items. */
  lemma {:induction false} Overwrite(out: seq<Item>, at: nat, x: Item, sid: nat)
    requires at < |out| && out[at].sid == x.sid
    requires forall k | at < k < |out| :: out[k].sid != x.sid
    ensures sid != x.sid ==> Project(out[at := x], sid) == Project(out, sid)
    ensures sid == x.sid ==>
              && Project(out, sid) != []
              && Project(out[at := x], sid) == Project(out, sid)[..|Project(out, sid)| - 1] + [x]
  {
    var a, b := out[..at], out[at + 1..];
    assert out == a + [out[at]] + b && out[at := x] == a + [x] + b;
    ProjectAround(a, out[at], b, sid);
    ProjectAround(a, x, b, sid);
  }

  lemma {:induction false} OverwriteNonValues(out: seq<Item>, at: nat, x: Item)
    requires at < |out| && IsValue(out[at]) && IsValue(x)
    ensures NonValues(out[at := x]) == NonValues(out)
  {
    var a, b := out[..at], out[at + 1..];
    assert out == a + [out[at]] + b && out[at := x] == a + [x] + b;
    NonValuesConcat(a + [out[at]], b);
    NonValuesConcat(a, [out[at]]);
    NonValuesConcat(a + [x], b);
    NonValuesConcat(a, [x]);
    OneItem(x, x.sid);
    OneItem(out[at], x.sid);
  }

  // ---- The pass ----

  function Get(counts: map<nat, nat>, sid: nat): nat {
    if sid in counts then counts[sid] else 0
  }

  /** What the pass has put out for the items `done`. */
  ghost predicate OutOk(done: seq<Item>, subs: map<nat, bool>, out: seq<Item>) {
    && (forall sid :: Project(out, sid) == Wanted(done, subs, sid))
    && NonValues(out) == NonValues(Known(done, subs))
    && |out| <= |Known(done, subs)|
  }

  /** Every item a subscription did not get is counted. */
  ghost predicate CountsOk(done: seq<Item>, subs: map<nat, bool>, out: seq<Item>, start: map<nat, nat>, now: map<nat, nat>) {
    forall sid ::
      if sid in subs then Get(now, sid) + |Project(out, sid)| == Get(start, sid) + |Project(done, sid)|
      else Get(now, sid) == Get(start, sid)
  }

  ghost predicate LastIs(out: seq<Item>, sid: nat, at: nat) {
    && at < |out| && out[at].sid == sid && IsValue(out[at])
    && forall k | at < k < |out| :: out[k].sid != sid
  }

  /** `lastValue` points at the open run of each collapsing subscription that has one. */
  ghost predicate LastOk(done: seq<Item>, subs: map<nat, bool>, out: seq<Item>, lastValue: map<nat, nat>) {
    && (forall sid | sid in lastValue :: sid in subs && !subs[sid] && LastIs(out, sid, lastValue[sid]))
    && (forall sid | sid in subs && !subs[sid] :: sid in lastValue <==> EndsInValue(Project(done, sid)))
  }

  lemma {:induction false} AppendWanted(done: seq<Item>, subs: map<nat, bool>, out: seq<Item>, x: Item, sid: nat)
    requires Project(out, sid) == Wanted(done, subs, sid) && x.sid in subs
    requires IsValue(x) && !subs[x.sid] ==> !EndsInValue(Project(done, x.sid))
    ensures Project(out + [x], sid) == Wanted(done + [x], subs, sid)
  {
    Snoc(done, x, subs, sid);
    Snoc(out, x, subs, sid);
    CollapseAppend(Project(done, sid), x);
  }

  /** An item that is appended starts a run, or is not collapsed at all. */
  lemma {:induction false} AppendOut(done: seq<Item>, subs: map<nat, bool>, out: seq<Item>, x: Item)
    requires OutOk(done, subs, out) && x.sid in subs
    requires IsValue(x) && !subs[x.sid] ==> !EndsInValue(Project(done, x.sid))
    ensures OutOk(done + [x], subs, out + [x])
  {
    forall sid ensures Project(out + [x], sid) == Wanted(done + [x], subs, sid) {
      assert Project(out, sid) == Wanted(done, subs, sid);
      AppendWanted(done, subs, out, x, sid);
    }
    Snoc(done, x, subs, x.sid);
    Snoc(out, x, subs, x.sid);
    Snoc(Known(done, subs), x, subs, x.sid);
  }

  lemma {:induction false} OverwriteWanted(done: seq<Item>, subs: map<nat, bool>, out: seq<Item>, x: Item, at: nat, sid: nat)
    requires Project(out, sid) == Wanted(done, subs, sid)
    requires x.sid in subs && !subs[x.sid] && IsValue(x) && EndsInValue(Project(done, x.sid)) && LastIs(out, x.sid, at)
    ensures Project(out[at := x], sid) == Wanted(done + [x], subs, sid)
  {
    Overwrite(out, at, x, sid);
    Snoc(done, x, subs, sid);
    CollapseAppend(Project(done, sid), x);
  }

  /** A value that overwrites the previous value of its run. */
  lemma {:induction false} OverwriteOut(done: seq<Item>, subs: map<nat, bool>, out: seq<Item>, x: Item, at: nat)
    requires OutOk(done, subs, out) && x.sid in subs && !subs[x.sid] && IsValue(x)
    requires EndsInValue(Project(done, x.sid)) && LastIs(out, x.sid, at)
    ensures OutOk(done + [x], subs, out[at := x])
  {
    forall sid ensures Project(out[at := x], sid) == Wanted(done + [x], subs, sid) {
      assert Project(out, sid) == Wanted(done, subs, sid);
      OverwriteWanted(done, subs, out, x, at, sid);
    }
    OverwriteNonValues(out, at, x);
    Snoc(done, x, subs, x.sid);
    Snoc(Known(done, subs), x, subs, x.sid);
  }

  lemma {:induction false} SkipOut(done: seq<Item>, subs: map<nat, bool>, out: seq<Item>, x: Item)
    requires OutOk(done, subs, out) && x.sid !in subs
    ensures OutOk(done + [x], subs, out)
  {
    Snoc(done, x, subs, x.sid);
    forall sid ensures Project(out, sid) == Wanted(done + [x], subs, sid) {
      assert Project(out, sid) == Wanted(done, subs, sid);
      Snoc(done, x, subs, sid);
    }
  }

  lemma {:induction false} StepCounts(
      done: seq<Item>, subs: map<nat, bool>, out: seq<Item>, start: map<nat, nat>, now: map<nat, nat>, x: Item)
    requires CountsOk(done, subs, out, start, now)
    ensures x.sid in subs ==> CountsOk(done + [x], subs, out + [x], start, now)
    ensures x.sid !in subs ==> CountsOk(done + [x], subs, out, start, now)
  {
    forall sid
      ensures |Project(done + [x], sid)| == |Project(done, sid)| + if x.sid == sid then 1 else 0
      ensures |Project(out + [x], sid)| == |Project(out, sid)| + if x.sid == sid then 1 else 0
    {
      Snoc(done, x, subs, sid);
      Snoc(out, x, subs, sid);
    }
  }

  lemma {:induction false} OverwriteCounts(
      done: seq<Item>, subs: map<nat, bool>, out: seq<Item>, start: map<nat, nat>, now: map<nat, nat>, x: Item, at: nat)
    requires CountsOk(done, subs, out, start, now) && x.sid in subs && IsValue(x) && LastIs(out, x.sid, at)
    ensures CountsOk(done + [x], subs, out[at := x], start, now[x.sid := Get(now, x.sid) + 1])
  {
    forall sid
      ensures |Project(done + [x], sid)| == |Project(done, sid)| + if x.sid == sid then 1 else 0
      ensures |Project(out[at := x], sid)| == |Project(out, sid)|
    {
      Snoc(done, x, subs, sid);
      Overwrite(out, at, x, sid);
    }
  }

  lemma {:induction false} AppendLast(done: seq<Item>, subs: map<nat, bool>, out: seq<Item>, lastValue: map<nat, nat>, x: Item)
    requires LastOk(done, subs, out, lastValue) && x.sid in subs
    ensures LastOk(done + [x], subs, out + [x],
                   if IsValue(x) && !subs[x.sid] then lastValue[x.sid := |out|] else lastValue - {x.sid})
  {
    var lastValue' := if IsValue(x) && !subs[x.sid] then lastValue[x.sid := |out|] else lastValue - {x.sid};
    forall sid | sid in lastValue' ensures sid in subs && !subs[sid] && LastIs(out + [x], sid, lastValue'[sid]) {
      assert sid != x.sid ==> LastIs(out, sid, lastValue[sid]);
    }
    forall sid | sid in subs && !subs[sid] ensures sid in lastValue' <==> EndsInValue(Project(done + [x], sid)) {
      Snoc(done, x, subs, sid);
    }
  }

  lemma {:induction false} OverwriteLast(done: seq<Item>, subs: map<nat, bool>, out: seq<Item>, lastValue: map<nat, nat>, x: Item)
    requires LastOk(done, subs, out, lastValue) && x.sid in lastValue && IsValue(x)
    ensures LastOk(done + [x], subs, out[lastValue[x.sid] := x], lastValue)
  {
    forall sid | sid in lastValue
      ensures sid in subs && !subs[sid] && LastIs(out[lastValue[x.sid] := x], sid, lastValue[sid])
    {
      assert LastIs(out, sid, lastValue[sid]) && LastIs(out, x.sid, lastValue[x.sid]);
    }
    forall sid | sid in subs && !subs[sid] ensures sid in lastValue <==> EndsInValue(Project(done + [x], sid)) {
      Snoc(done, x, subs, sid);
    }
  }

  lemma {:induction false} SkipLast(done: seq<Item>, subs: map<nat, bool>, out: seq<Item>, lastValue: map<nat, nat>, x: Item)
    requires LastOk(done, subs, out, lastValue) && x.sid !in subs
    ensures LastOk(done + [x], subs, out, lastValue)
  {
    forall sid | sid in subs && !subs[sid] ensures sid in lastValue <==> EndsInValue(Project(done + [x], sid)) {
      Snoc(done, x, subs, sid);
    }
  }

  // ---- The pass, item by item ----

  datatype Pass = Pass(out: seq<Item>, lastValue: map<nat, nat>, dropped: map<nat, nat>)

  /** One turn of the loop. */
  function Turn(p: Pass, subs: map<nat, bool>, x: Item): Pass {
    if x.sid !in subs then p
    else if IsValue(x) && !subs[x.sid] && x.sid in p.lastValue && p.lastValue[x.sid] < |p.out| then
      p.(out := p.out[p.lastValue[x.sid] := x], dropped := p.dropped[x.sid := Get(p.dropped, x.sid) + 1])
    else
      p.(out := p.out + [x],
         lastValue := if IsValue(x) && !subs[x.sid] then p.lastValue[x.sid := |p.out|] else p.lastValue - {x.sid})
  }

  function RunPass(subs: map<nat, bool>, start: map<nat, nat>, batch: seq<Item>): Pass {
    if batch == [] then Pass([], map[], start)
    else Turn(RunPass(subs, start, batch[..|batch| - 1]), subs, batch[|batch| - 1])
  }

  /** What the pass has made of `done` so far. */
  ghost predicate Fits(p: Pass, done: seq<Item>, subs: map<nat, bool>, start: map<nat, nat>) {
    OutOk(done, subs, p.out) && CountsOk(done, subs, p.out, start, p.dropped) && LastOk(done, subs, p.out, p.lastValue)
  }

  lemma {:induction false} SkipFits(p: Pass, done: seq<Item>, subs: map<nat, bool>, start: map<nat, nat>, x: Item)
    requires Fits(p, done, subs, start) && x.sid !in subs
    ensures Fits(p, done + [x], subs, start)
  {
    SkipOut(done, subs, p.out, x);
    SkipLast(done, subs, p.out, p.lastValue, x);
    StepCounts(done, subs, p.out, start, p.dropped, x);
  }

  lemma {:induction false} OverwriteFits(p: Pass, p': Pass, done: seq<Item>, subs: map<nat, bool>, start: map<nat, nat>, x: Item)
    requires Fits(p, done, subs, start) && x.sid in subs && !subs[x.sid] && x.sid in p.lastValue && IsValue(x)
    requires LastIs(p.out, x.sid, p.lastValue[x.sid])
    requires p' == p.(out := p.out[p.lastValue[x.sid] := x], dropped := p.dropped[x.sid := Get(p.dropped, x.sid) + 1])
    ensures Fits(p', done + [x], subs, start)
  {
    var at := p.lastValue[x.sid];
    OverwriteOut(done, subs, p.out, x, at);
    OverwriteCounts(done, subs, p.out, start, p.dropped, x, at);
    OverwriteLast(done, subs, p.out, p.lastValue, x);
  }

  lemma {:induction false} AppendFits(p: Pass, p': Pass, done: seq<Item>, subs: map<nat, bool>, start: map<nat, nat>, x: Item)
    requires Fits(p, done, subs, start) && x.sid in subs && !(IsValue(x) && !subs[x.sid] && x.sid in p.lastValue)
    requires p' == Turn(p, subs, x)
    ensures Fits(p', done + [x], subs, start)
  {
    AppendOut(done, subs, p.out, x);
    AppendLast(done, subs, p.out, p.lastValue, x);
    StepCounts(done, subs, p.out, start, p.dropped, x);
  }

  lemma OverwritesInRange(p: Pass, done: seq<Item>, subs: map<nat, bool>, sid: nat)
    requires LastOk(done, subs, p.out, p.lastValue) && sid in p.lastValue
    ensures LastIs(p.out, sid, p.lastValue[sid]) && p.lastValue[sid] < |p.out|
  {
  }

  lemma TurnOverwrites(p: Pass, subs: map<nat, bool>, x: Item)
    requires x.sid in subs && !subs[x.sid] && IsValue(x) && x.sid in p.lastValue && p.lastValue[x.sid] < |p.out|
    ensures Turn(p, subs, x)
         == p.(out := p.out[p.lastValue[x.sid] := x], dropped := p.dropped[x.sid := Get(p.dropped, x.sid) + 1])
  {
  }

  lemma {:induction false} TurnFits(p: Pass, p': Pass, subs: map<nat, bool>, start: map<nat, nat>, done: seq<Item>, x: Item)
    requires Fits(p, done, subs, start) && p' == Turn(p, subs, x)
    ensures Fits(p', done + [x], subs, start)
  {
    if x.sid !in subs {
      SkipFits(p, done, subs, start, x);
    } else if IsValue(x) && !subs[x.sid] && x.sid in p.lastValue {
      OverwritesInRange(p, done, subs, x.sid);
      TurnOverwrites(p, subs, x);
      OverwriteFits(p, p', done, subs, start, x);
    } else {
      AppendFits(p, p', done, subs, start, x);
    }
  }

  lemma RunPassNext(subs: map<nat, bool>, start: map<nat, nat>, done: seq<Item>, x: Item)
    ensures RunPass(subs, start, done + [x]) == Turn(RunPass(subs, start, done), subs, x)
  {
    assert (done + [x])[..|done|] == done;
  }

  lemma {:induction false} PassKeepsOk(subs: map<nat, bool>, start: map<nat, nat>, batch: seq<Item>)
    ensures Fits(RunPass(subs, start, batch), batch, subs, start)
    decreases |batch|
  {
    if batch != [] {
      var done, x := batch[..|batch| - 1], batch[|batch| - 1];
      assert batch == done + [x];
      PassKeepsOk(subs, start, done);
      RunPassNext(subs, start, done, x);
      TurnFits(RunPass(subs, start, done), RunPass(subs, start, batch), subs, start, done, x);
    }
  }

  lemma {:induction false} LastValueInRange(subs: map<nat, bool>, start: map<nat, nat>, batch: seq<Item>, sid: nat)
    ensures var p := RunPass(subs, start, batch); sid in p.lastValue ==> p.lastValue[sid] < |p.out|
    decreases |batch|
  {
    if batch != [] {
      LastValueInRange(subs, start, batch[..|batch| - 1], sid);
    }
  }

  /** A value that only replaces the one before it. */
  predicate Replaces(done: seq<Item>, subs: map<nat, bool>, x: Item) {
    x.sid in subs && !subs[x.sid] && IsValue(x) && EndsInValue(Project(done, x.sid))
  }

  /** Whose item of which kind stands where: each run of values at its first one's place. */
  function Places(batch: seq<Item>, subs: map<nat, bool>): seq<(nat, nat)> {
    if batch == [] then []
    else
      var done, x := batch[..|batch| - 1], batch[|batch| - 1];
      Places(done, subs) + if x.sid !in subs || Replaces(done, subs, x) then [] else [(x.sid, x.kind)]
  }

  function Stamps(out: seq<Item>): (r: seq<(nat, nat)>)
    ensures |r| == |out|
  {
    seq(|out|, k requires 0 <= k < |out| => (out[k].sid, out[k].kind))
  }

  lemma {:induction false} TurnKeepsPlaces(p: Pass, subs: map<nat, bool>, done: seq<Item>, x: Item)
    requires LastOk(done, subs, p.out, p.lastValue)
    ensures Stamps(Turn(p, subs, x).out)
         == Stamps(p.out) + if x.sid !in subs || Replaces(done, subs, x) then [] else [(x.sid, x.kind)]
  {
    if Replaces(done, subs, x) {
      var at := p.lastValue[x.sid];
      assert LastIs(p.out, x.sid, at);
      assert Stamps(p.out[at := x]) == Stamps(p.out);
    } else if x.sid in subs {
      assert Turn(p, subs, x).out == p.out + [x];
    }
  }

  /** Overwriting in place moves nothing: the plan's items stand in the order in which their runs began. */
  lemma {:induction false} PlacesAreKept(subs: map<nat, bool>, start: map<nat, nat>, batch: seq<Item>)
    ensures Stamps(RunPass(subs, start, batch).out) == Places(batch, subs)
    decreases |batch|
  {
    if batch != [] {
      var done, x := batch[..|batch| - 1], batch[|batch| - 1];
      PlacesAreKept(subs, start, done);
      PassKeepsOk(subs, start, done);
      TurnKeepsPlaces(RunPass(subs, start, done), subs, done, x);
    }
  }

  /** All the counts together. */
  ghost function Total(counts: map<nat, nat>): nat
    decreases |counts|
  {
    if counts == map[] then 0
    else
      var k :| k in counts;
      assert |counts - {k}| < |counts| by {
        assert counts == (counts - {k})[k := counts[k]];
      }
      counts[k] + Total(counts - {k})
  }

  lemma {:induction false} TotalSplits(counts: map<nat, nat>, sid: nat)
    requires sid in counts
    ensures Total(counts) == counts[sid] + Total(counts - {sid})
    decreases |counts|
  {
    var k :| k in counts && Total(counts) == counts[k] + Total(counts - {k});
    if k != sid {
      assert counts == (counts - {k})[k := counts[k]];
      assert counts == (counts - {sid})[sid := counts[sid]];
      TotalSplits(counts - {k}, sid);
      TotalSplits(counts - {sid}, k);
      assert counts - {k} - {sid} == counts - {sid} - {k};
    }
  }

  lemma {:induction false} TotalGrows(counts: map<nat, nat>, sid: nat)
    ensures Total(counts[sid := Get(counts, sid) + 1]) == Total(counts) + 1
  {
    var counts' := counts[sid := Get(counts, sid) + 1];
    TotalSplits(counts', sid);
    assert counts' - {sid} == counts - {sid};
    if sid in counts {
      TotalSplits(counts, sid);
    } else {
      assert counts - {sid} == counts;
    }
  }

  /** Of the items of known subscriptions each one is put out or newly counted as dropped. */
  lemma {:induction false} NoneUnaccounted(subs: map<nat, bool>, start: map<nat, nat>, batch: seq<Item>)
    ensures var p := RunPass(subs, start, batch);
            |p.out| + Total(p.dropped) == |Known(batch, subs)| + Total(start)
    decreases |batch|
  {
    if batch != [] {
      NoneUnaccounted(subs, start, batch[..|batch| - 1]);
      var p := RunPass(subs, start, batch[..|batch| - 1]);
      TotalGrows(p.dropped, batch[|batch| - 1].sid);
      LastValueInRange(subs, start, batch[..|batch| - 1], batch[|batch| - 1].sid);
    }
  }

  class Dispatcher {
    var subs: map<nat, bool>        // id to `all_updates`
    var dropped: map<nat, nat>      // id to `dropped_callbacks`

    constructor ()
      ensures subs == map[] && dropped == map[]
    {
      subs, dropped := map[], map[];
    }

    method Add(sid: nat, allUpdates: bool)
      modifies this
      ensures subs == old(subs)[sid := allUpdates] && dropped == old(dropped)
    {
      subs := subs[sid := allUpdates];
    }

    method Remove(sid: nat)
      modifies this
      ensures subs == old(subs) - {sid} && dropped == old(dropped)
    {
      subs := subs - {sid};
    }

    /** Each subscription gets its items with every run of values collapsed, if it asked for
        that; everything that is not a value keeps its place in the global order; and what a
        subscription did not get is added to its count of dropped updates. */
    method Plan(batch: seq<Item>) returns (out: seq<Item>)
      modifies this`dropped
      ensures OutOk(batch, subs, out)
      ensures Stamps(out) == Places(batch, subs)
      ensures CountsOk(batch, subs, out, old(dropped), dropped)
      ensures |out| + Total(dropped) == |Known(batch, subs)| + Total(old(dropped))
    {
      out := [];
      var lastValue: map<nat, nat> := map[];
      var i := 0;
      while i < |batch|
        invariant i <= |batch|
        invariant Pass(out, lastValue, dropped) == RunPass(subs, old(dropped), batch[..i])
      {
        var x := batch[i];
        LastValueInRange(subs, old(dropped), batch[..i], x.sid);
        assert batch[..i + 1][..i] == batch[..i];
        if x.sid in subs {
          if IsValue(x) && !subs[x.sid] && x.sid in lastValue {
            out := out[lastValue[x.sid] := x];
            dropped := dropped[x.sid := Get(dropped, x.sid) + 1];
          } else {
            lastValue := if IsValue(x) && !subs[x.sid] then lastValue[x.sid := |out|] else lastValue - {x.sid};
            out := out + [x];
          }
        }
        i := i + 1;
      }
      assert batch[..i] == batch;
      PassKeepsOk(subs, old(dropped), batch);
      PlacesAreKept(subs, old(dropped), batch);
      NoneUnaccounted(subs, old(dropped), batch);
    }
  }
}
