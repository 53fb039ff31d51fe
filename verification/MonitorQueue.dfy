/**
 `src/pva/hub.rs`: one monitor's bounded queue and the decoder that feeds it.
 A value that finds the queue full is squashed into the tail, if the tail is a
 value; the id is signalled once per drain.
 */
module MonitorQueue {
  import opened Common
  import opened PvDesc
  import opened PvValue
  import opened Updates

  datatype Update =
    | ValueUpdate(desc: FieldDesc, delta: Delta)
    | Connected(peer: string)
    | Disconnected
    | Finished

  // ---- The queue, as a function of what it held ----

  function CountValues(items: seq<Update>): nat {
    if items == [] then 0
    else CountValues(items[..|items| - 1]) + if items[|items| - 1].ValueUpdate? then 1 else 0
  }

  function CountLifecycle(items: seq<Update>): nat {
    if items == [] then 0
    else CountLifecycle(items[..|items| - 1]) + if items[|items| - 1].ValueUpdate? then 0 else 1
  }

  /** The values of a queue, without the lifecycle items between them. */
  function Deltas(items: seq<Update>): seq<Delta> {
    if items == [] then []
    else
      Deltas(items[..|items| - 1])
      + if items[|items| - 1].ValueUpdate? then [items[|items| - 1].delta] else []
  }

  predicate TailIsValue(items: seq<Update>) {
    items != [] && items[|items| - 1].ValueUpdate?
  }

  /** The queue after `push_value`. */
  function Pushed(items: seq<Update>, limit: nat, d: FieldDesc, x: Delta): seq<Update> {
    if CountValues(items) >= limit && TailIsValue(items) then
      items[..|items| - 1] + [ValueUpdate(d, Merge(items[|items| - 1].delta, x))]
    else items + [ValueUpdate(d, x)]
  }

  /** The hub's ready channel. */
  class ReadyChannel {
    var ids: seq<nat>

    constructor ()
      ensures ids == []
    {
      ids := [];
    }

    method Send(id: nat)
      modifies this
      ensures ids == old(ids) + [id]
    {
      ids := ids + [id];
    }
  }

  /** What a monitor has for the consumer, and where it announces that. */
  class Monitor {
    const id: nat
    const limit: nat
    const ready: ReadyChannel
    var items: seq<Update>
    var signalled: bool

    /** As `subscribe` makes it: the state before the server answers is `Disconnected`. */
    constructor (id: nat, limit: nat, ready: ReadyChannel)
      ensures this.id == id && this.limit == limit && this.ready == ready
      ensures items == [Disconnected] && !signalled
    {
      this.id, this.limit, this.ready := id, limit, ready;
      items, signalled := [Disconnected], false;
    }

    /** Announce the queue, unless that was done and nothing has been taken since. */
    method Signal()
      modifies this`signalled, ready
      ensures signalled
      ensures ready.ids == old(ready.ids) + if old(signalled) then [] else [id]
    {
      if !signalled {
        signalled := true;
        ready.Send(id);
      }
    }

    method Push(u: Update)
      modifies this, ready
      ensures items == old(items) + [u] && signalled
      ensures ready.ids == old(ready.ids) + if old(signalled) then [] else [id]
    {
      items := items + [u];
      Signal();
    }

    method PushValue(d: FieldDesc, x: Delta)
      modifies this, ready
      ensures items == Pushed(old(items), limit, d, x) && signalled
      ensures ready.ids == old(ready.ids) + if old(signalled) then [] else [id]
    {
      var values := CountValues(items);
      if values >= limit && items != [] {
        var tail := items[|items| - 1];
        if tail.ValueUpdate? {
          items := items[|items| - 1 := ValueUpdate(d, Delta(tail.delta.changed + x.changed, x.value))];
          Signal();
          return;
        }
      }
      items := items + [ValueUpdate(d, x)];
      Signal();
    }

    /** Hand out the queue; from here on it is unannounced. */
    method Take() returns (taken: seq<Update>)
      modifies this
      ensures taken == old(items) && items == [] && !signalled
    {
      signalled := false;
      taken := items;
      items := [];
    }
  }

  /** The request's `queueSize` option: an integer, a text that is a count or not, or something else. */
  datatype QueueSize = Number(n: int) | Word(count: Option<nat>) | Unusable

  const TWO_TO_THE_64: int := 0x1_0000_0000_0000_0000

  /** A count cast to `usize`: a negative one wraps. */
  function AsUsize(n: int): nat
    requires -TWO_TO_THE_64 < n < TWO_TO_THE_64
  {
    if n < 0 then TWO_TO_THE_64 + n else n
  }

  /** `queue_limit`: an explicit limit, else the request's `queueSize`, else 4; never below 1. A
      negative `queueSize` comes out as a limit no queue reaches. */
  function QueueLimit(explicit: Option<nat>, queueSize: Option<QueueSize>): (limit: nat)
    requires queueSize.Some? && queueSize.value.Number? ==> -0x8000_0000_0000_0000 <= queueSize.value.n < TWO_TO_THE_64
    ensures limit >= 1
    ensures explicit == Some(0) ==> limit == 1
    ensures explicit.Some? && explicit.value >= 1 ==> limit == explicit.value
    ensures explicit.None? && (queueSize.None? || queueSize.value.Unusable? || queueSize.value == Word(None)) ==> limit == 4
    ensures explicit.None? && queueSize.Some? && queueSize.value.Number? ==>
              var n := queueSize.value.n;
              if n >= 1 then limit == n else if n == 0 then limit == 1 else limit >= 0x8000_0000_0000_0000
    ensures explicit.None? && queueSize.Some? && queueSize.value.Word? && queueSize.value.count.Some? ==>
              limit == if queueSize.value.count.value == 0 then 1 else queueSize.value.count.value
  {
    var n :=
      match explicit
      case Some(n) => n
      case None =>
        match queueSize
        case Some(Number(n)) => AsUsize(n)
        case Some(Word(Some(n))) => n
        case _ => 4;
    if n < 1 then 1 else n
  }

  // ---- The decoder ----

  /** A wire frame: a changed set and a body, or bytes that do not decode. */
  datatype Frame = Malformed | Frame(delta: Delta)

  datatype DecoderState = DecoderState(desc: Option<FieldDesc>, prior: Option<PvField>)

  const FRESH_DECODER := DecoderState(None, None)

  /** What one frame makes of the decoder, and the completed update if it decodes. */
  function Decoded(st: DecoderState, d: FieldDesc, frame: Frame): (DecoderState, Option<Delta>) {
    var st1 := if st.desc == Some(d) then st else DecoderState(Some(d), None);
    match frame
    case Malformed => (st1, None)
    case Frame(x) =>
      var full := if st1.prior.Some? then FillUnmarked(d, x.changed, 0, x.value, st1.prior.value) else x.value;
      (st1.(prior := Some(full)), Some(Delta(x.changed, full)))
  }

  class Decoder {
    var desc: Option<FieldDesc>
    var prior: Option<PvField>

    constructor ()
      ensures State() == FRESH_DECODER
    {
      desc, prior := None, None;
    }

    function State(): DecoderState
      reads this
    {
      DecoderState(desc, prior)
    }

    method Decode(d: FieldDesc, frame: Frame) returns (r: Option<Delta>)
      modifies this
      ensures (State(), r) == Decoded(old(State()), d, frame)
    {
      if desc != Some(d) {
        desc, prior := Some(d), None;
      }
      match frame
      case Malformed => return None;
      case Frame(x) =>
        var full := x.value;
        if prior.Some? {
          full := FillUnmarked(d, x.changed, 0, full, prior.value);
        }
        prior := Some(full);
        return Some(Delta(x.changed, full));
    }
  }

  // ---- The decoder makes successive values a chain ----

  function DecodeAll(st: DecoderState, d: FieldDesc, frames: seq<Frame>): (DecoderState, seq<Delta>) {
    if frames == [] then (st, [])
    else
      var (st1, out) := DecodeAll(st, d, frames[..|frames| - 1]);
      var (st2, x) := Decoded(st1, d, frames[|frames| - 1]);
      (st2, out + if x.Some? then [x.value] else [])
  }

  predicate FramesConform(d: FieldDesc, frames: seq<Frame>) {
    forall i | 0 <= i < |frames| :: frames[i].Frame? ==> Conforms(d, frames[i].delta.value)
  }

  predicate DecoderOk(st: DecoderState, d: FieldDesc) {
    st.prior.Some? && st.desc == Some(d) ==> Conforms(d, st.prior.value)
  }

  /** One frame: the completed value conforms and moved from the prior one inside its marks only. */
  lemma {:induction false} DecodedMoves(st: DecoderState, d: FieldDesc, x: Delta)
    requires WellFormed(d) && DecoderOk(st, d) && Conforms(d, x.value)
    ensures var (st', r) := Decoded(st, d, Frame(x));
            && r.Some? && st' == DecoderState(Some(d), Some(r.value.value))
            && Conforms(d, r.value.value)
            && (st.desc == Some(d) && st.prior.Some? ==> Moves(d, st.prior.value, r.value))
  {
    if st.desc == Some(d) && st.prior.Some? {
      FillConforms(d, x.changed, 0, x.value, st.prior.value);
      OverlayAbsorbs(d, x.changed, x.value, st.prior.value, st.prior.value);
    }
  }

  /** Whatever frames arrive, malformed ones included, the decoder's outputs chain. */
  lemma {:induction false} DecoderChains(st: DecoderState, d: FieldDesc, frames: seq<Frame>)
    requires WellFormed(d) && DecoderOk(st, d) && FramesConform(d, frames)
    ensures var (st', out) := DecodeAll(st, d, frames);
            && DecoderOk(st', d)
            && DeltasConform(d, out) && Chain(d, out)
            && (out != [] ==> st' == DecoderState(Some(d), Some(out[|out| - 1].value)))
            && (out == [] && st.desc == Some(d) ==> st' == st)
            && (out == [] && frames != [] ==> st'.desc == Some(d))
            && (out == [] && st'.desc == Some(d) && st'.prior.Some? ==> st' == st)
            && (out != [] && st.desc == Some(d) && st.prior.Some? ==> Moves(d, st.prior.value, out[0]))
    decreases |frames|
  {
    if frames != [] {
      var init := frames[..|frames| - 1];
      var last := frames[|frames| - 1];
      DecoderChains(st, d, init);
      if last.Frame? {
        var (st1, out1) := DecodeAll(st, d, init);
        DecodedMoves(st1, d, last.delta);
      }
    }
  }

  // ---- What squashing does to a queue ----

  function AsUpdates(d: FieldDesc, ds: seq<Delta>): (us: seq<Update>)
    ensures |us| == |ds|
  {
    seq(|ds|, i requires 0 <= i < |ds| => ValueUpdate(d, ds[i]))
  }

  function PushAll(items: seq<Update>, limit: nat, d: FieldDesc, ds: seq<Delta>): seq<Update> {
    if ds == [] then items
    else Pushed(PushAll(items, limit, d, ds[..|ds| - 1]), limit, d, ds[|ds| - 1])
  }

  /** How many values still fit behind a lifecycle item before squashing starts. */
  function Room(items: seq<Update>, limit: nat): nat {
    if CountValues(items) < limit then limit - CountValues(items) else 1
  }

  lemma {:induction false} CountValuesAppend(items: seq<Update>, d: FieldDesc, ds: seq<Delta>)
    ensures CountValues(items + AsUpdates(d, ds)) == CountValues(items) + |ds|
    decreases |ds|
  {
    if ds == [] {
      assert items + AsUpdates(d, ds) == items;
    } else {
      var all := items + AsUpdates(d, ds);
      assert all[..|all| - 1] == items + AsUpdates(d, ds[..|ds| - 1]);
      CountValuesAppend(items, d, ds[..|ds| - 1]);
    }
  }

  lemma {:induction false} PushedInRoom(q: seq<Update>, limit: nat, d: FieldDesc, x: Delta)
    requires CountValues(q) < limit || !TailIsValue(q)
    ensures Pushed(q, limit, d, x) == q + [ValueUpdate(d, x)]
  {
  }

  /** Values pushed behind a lifecycle item stay one by one until the room is used up. */
  lemma {:induction false} RoomFills(items: seq<Update>, limit: nat, d: FieldDesc, ds: seq<Delta>)
    requires limit >= 1 && !TailIsValue(items) && |ds| <= Room(items, limit)
    ensures PushAll(items, limit, d, ds) == items + AsUpdates(d, ds)
    decreases |ds|
  {
    if ds == [] {
      assert items + AsUpdates(d, ds) == items;
    } else {
      var init := ds[..|ds| - 1];
      var q := items + AsUpdates(d, init);
      RoomFills(items, limit, d, init);
      CountValuesAppend(items, d, init);
      assert init == [] ==> q == items;
      PushedInRoom(q, limit, d, ds[|ds| - 1]);
      assert q + [ValueUpdate(d, ds[|ds| - 1])] == items + AsUpdates(d, ds);
    }
  }

  lemma {:induction false} PushOntoFullTail(front: seq<Update>, limit: nat, d: FieldDesc, tail: Delta, x: Delta)
    requires CountValues(front) + 1 >= limit
    ensures Pushed(front + [ValueUpdate(d, tail)], limit, d, x) == front + [ValueUpdate(d, Merge(tail, x))]
  {
    var q := front + [ValueUpdate(d, tail)];
    assert q[..|q| - 1] == front;
  }

  /** Everything from the last place in the room on becomes one merge. */
  lemma {:induction false} SquashShape(items: seq<Update>, limit: nat, d: FieldDesc, ds: seq<Delta>)
    requires limit >= 1 && !TailIsValue(items) && |ds| >= Room(items, limit)
    ensures var k := Room(items, limit) - 1;
            PushAll(items, limit, d, ds)
            == items + AsUpdates(d, ds[..k]) + [ValueUpdate(d, MergeAll(ds[k..]))]
    decreases |ds|
  {
    var k := Room(items, limit) - 1;
    var front := items + AsUpdates(d, ds[..k]);
    if |ds| == k + 1 {
      RoomFills(items, limit, d, ds);
      assert ds[k..] == [ds[k]];
      assert items + AsUpdates(d, ds) == front + [ValueUpdate(d, MergeAll(ds[k..]))];
    } else {
      var init := ds[..|ds| - 1];
      SquashShape(items, limit, d, init);
      assert init[..k] == ds[..k];
      CountValuesAppend(items, d, ds[..k]);
      PushOntoFullTail(front, limit, d, MergeAll(init[k..]), ds[|ds| - 1]);
      assert ds[k..][..|ds[k..]| - 1] == init[k..];
    }
  }

  lemma {:induction false} DeltasAppend(items: seq<Update>, d: FieldDesc, ds: seq<Delta>)
    ensures Deltas(items + AsUpdates(d, ds)) == Deltas(items) + ds
    decreases |ds|
  {
    if ds == [] {
      assert items + AsUpdates(d, ds) == items;
    } else {
      var init := ds[..|ds| - 1];
      var all := items + AsUpdates(d, ds);
      assert all == (items + AsUpdates(d, init)) + [ValueUpdate(d, ds[|ds| - 1])];
      DeltasAppend(items, d, init);
      DeltasSnoc(items + AsUpdates(d, init), d, ds[|ds| - 1]);
      assert (Deltas(items) + init) + [ds[|ds| - 1]] == Deltas(items) + ds;
    }
  }

  lemma {:induction false} DeltasSnoc(items: seq<Update>, d: FieldDesc, x: Delta)
    ensures Deltas(items + [ValueUpdate(d, x)]) == Deltas(items) + [x]
  {
    assert (items + [ValueUpdate(d, x)])[..|items|] == items;
  }

  lemma {:induction false} DeltasConcat(a: seq<Update>, b: seq<Update>)
    ensures Deltas(a + b) == Deltas(a) + Deltas(b)
    decreases |b|
  {
    if b == [] {
      assert a + b == a;
    } else {
      assert (a + b)[..|a + b| - 1] == a + b[..|b| - 1];
      DeltasConcat(a, b[..|b| - 1]);
    }
  }

  /** What pushing one value does to the queue's values. */
  lemma {:induction false} PushedDeltas(items: seq<Update>, limit: nat, d: FieldDesc, x: Delta)
    ensures CountValues(items) >= limit && TailIsValue(items) ==>
              && Deltas(items) != []
              && Deltas(items)[|Deltas(items)| - 1] == items[|items| - 1].delta
              && Deltas(Pushed(items, limit, d, x)) == SquashTail(Deltas(items), x)
    ensures !(CountValues(items) >= limit && TailIsValue(items)) ==>
              Deltas(Pushed(items, limit, d, x)) == Deltas(items) + [x]
  {
    var q := Pushed(items, limit, d, x);
    assert q[..|q| - 1] == if CountValues(items) >= limit && TailIsValue(items) then items[..|items| - 1] else items;
  }

  /** Squashing a decoded stream loses no meaning: replaying what a full queue kept equals
      replaying every value the decoder produced, from any starting value. */
  lemma {:induction false} SquashPreservesMeaning(
      items: seq<Update>, limit: nat, st: DecoderState, d: FieldDesc, frames: seq<Frame>, base: PvField)
    requires WellFormed(d) && Conforms(d, base) && limit >= 1 && !TailIsValue(items)
    requires DecoderOk(st, d) && FramesConform(d, frames) && DeltasConform(d, Deltas(items))
    ensures var out := DecodeAll(st, d, frames).1;
            Replay(d, base, Deltas(PushAll(items, limit, d, out))) == Replay(d, base, Deltas(items) + out)
  {
    var out := DecodeAll(st, d, frames).1;
    DecoderChains(st, d, frames);
    if |out| <= Room(items, limit) {
      RoomFills(items, limit, d, out);
      DeltasAppend(items, d, out);
    } else {
      var k := Room(items, limit) - 1;
      SquashShape(items, limit, d, out);
      MergedDeltas(items, d, out, k);
      ReplayMergedTail(d, base, Deltas(items), out, k);
    }
  }

  lemma {:induction false} MergedDeltas(items: seq<Update>, d: FieldDesc, ds: seq<Delta>, k: nat)
    requires k < |ds|
    ensures Deltas(items + AsUpdates(d, ds[..k]) + [ValueUpdate(d, MergeAll(ds[k..]))])
            == Deltas(items) + ds[..k] + [MergeAll(ds[k..])]
  {
    var front := items + AsUpdates(d, ds[..k]);
    var merged := [MergeAll(ds[k..])];
    DeltasAppend(items, d, ds[..k]);
    DeltasAppend(front, d, merged);
    assert front + AsUpdates(d, merged) == front + [ValueUpdate(d, MergeAll(ds[k..]))];
  }

  lemma {:induction false} ReplayMergedTail(d: FieldDesc, base: PvField, before: seq<Delta>, ds: seq<Delta>, k: nat)
    requires WellFormed(d) && Conforms(d, base) && k < |ds|
    requires DeltasConform(d, before) && DeltasConform(d, ds) && Chain(d, ds)
    ensures Replay(d, base, before + ds[..k] + [MergeAll(ds[k..])]) == Replay(d, base, before + ds)
  {
    var front, run := before + ds[..k], ds[k..];
    assert before + ds == front + run;
    forall i | 1 <= i < |run| ensures Moves(d, run[i - 1].value, run[i]) {
      assert Moves(d, ds[k + i - 1].value, ds[k + i]);
    }
    ReplayConforms(d, base, front);
    ReplayMergeAll(d, Replay(d, base, front), run);
    ReplayConcat(d, base, front, run);
    ReplayConcat(d, base, front, [MergeAll(run)]);
  }

  // ---- The memory bound ----

  datatype QueueOp =
    | OpValue(desc: FieldDesc, delta: Delta)
    | OpLifecycle(item: Update)
    | OpTake

  predicate OpsOk(ops: seq<QueueOp>) {
    forall i | 0 <= i < |ops| :: ops[i].OpLifecycle? ==> !ops[i].item.ValueUpdate?
  }

  /** A queue's contents after any sequence of pushes and takes. */
  function RunQueue(limit: nat, ops: seq<QueueOp>): seq<Update> {
    if ops == [] then [Disconnected]
    else
      StepQueue(limit, RunQueue(limit, ops[..|ops| - 1]), ops[|ops| - 1])
  }

  function StepQueue(limit: nat, items: seq<Update>, op: QueueOp): seq<Update> {
    match op
    case OpValue(d, x) => Pushed(items, limit, d, x)
    case OpLifecycle(u) => items + [u]
    case OpTake => []
  }

  lemma {:induction false} CountsOfSnoc(items: seq<Update>, u: Update)
    ensures CountValues(items + [u]) == CountValues(items) + if u.ValueUpdate? then 1 else 0
    ensures CountLifecycle(items + [u]) == CountLifecycle(items) + if u.ValueUpdate? then 0 else 1
  {
    assert (items + [u])[..|items|] == items;
  }

  /** In every reachable queue the values number at most `limit` plus the lifecycle items
      queued with them, and fewer when a lifecycle item is last. */
  lemma {:induction false} MemoryBound(limit: nat, ops: seq<QueueOp>)
    requires limit >= 1 && OpsOk(ops)
    ensures var items := RunQueue(limit, ops);
            && CountValues(items) <= limit + CountLifecycle(items)
            && (items != [] && !TailIsValue(items) ==> CountValues(items) < limit + CountLifecycle(items))
    decreases |ops|
  {
    if ops == [] {
      assert [Disconnected][..0] == [];
    } else {
      var before := RunQueue(limit, ops[..|ops| - 1]);
      MemoryBound(limit, ops[..|ops| - 1]);
      match ops[|ops| - 1]
      case OpValue(d, x) =>
        CountsOfSnoc(before, ValueUpdate(d, x));
        if CountValues(before) >= limit && TailIsValue(before) {
          CountsOfSnoc(before[..|before| - 1], ValueUpdate(d, Merge(before[|before| - 1].delta, x)));
        }
      case OpLifecycle(u) => CountsOfSnoc(before, u);
      case OpTake =>
    }
  }

  /** The run that fills the queue to the brim: `extra` lifecycle items each let one more value in. */
  function Brim(limit: nat, d: FieldDesc, x: Delta, extra: nat): seq<QueueOp> {
    if extra == 0 then seq(limit, i => OpValue(d, x))
    else Brim(limit, d, x, extra - 1) + [OpLifecycle(Disconnected), OpValue(d, x)]
  }

  lemma {:induction false} FillToLimit(limit: nat, n: nat, d: FieldDesc, x: Delta)
    requires n <= limit
    ensures RunQueue(limit, seq(n, i => OpValue(d, x))) == [Disconnected] + seq(n, i => ValueUpdate(d, x))
    ensures CountValues([Disconnected] + seq(n, i => ValueUpdate(d, x))) == n
    ensures CountLifecycle([Disconnected] + seq(n, i => ValueUpdate(d, x))) == 1
    decreases n
  {
    if n == 0 {
      assert [Disconnected] + seq(n, i => ValueUpdate(d, x)) == [Disconnected];
      assert [Disconnected][..0] == [];
    } else {
      FillToLimit(limit, n - 1, d, x);
      var items := [Disconnected] + seq(n - 1, i => ValueUpdate(d, x));
      assert seq(n, i => OpValue(d, x)) == seq(n - 1, i => OpValue(d, x)) + [OpValue(d, x)];
      assert [Disconnected] + seq(n, i => ValueUpdate(d, x)) == items + [ValueUpdate(d, x)];
      RunQueueSnoc(limit, seq(n - 1, i => OpValue(d, x)), OpValue(d, x));
      PushedInRoom(items, limit, d, x);
      CountsOfSnoc(items, ValueUpdate(d, x));
    }
  }

  lemma {:induction false} RunQueueSnoc(limit: nat, ops: seq<QueueOp>, op: QueueOp)
    requires OpsOk(ops + [op])
    ensures OpsOk(ops)
    ensures RunQueue(limit, ops + [op]) == StepQueue(limit, RunQueue(limit, ops), op)
  {
    assert (ops + [op])[..|ops|] == ops;
  }

  /** A lifecycle item lets one more value in, however full the queue is. */
  lemma {:induction false} OneMoreGetsIn(limit: nat, ops: seq<QueueOp>, d: FieldDesc, x: Delta)
    requires OpsOk(ops)
    ensures var more := ops + [OpLifecycle(Disconnected), OpValue(d, x)];
            && OpsOk(more)
            && RunQueue(limit, more) == RunQueue(limit, ops) + [Disconnected] + [ValueUpdate(d, x)]
            && CountValues(RunQueue(limit, more)) == CountValues(RunQueue(limit, ops)) + 1
            && CountLifecycle(RunQueue(limit, more)) == CountLifecycle(RunQueue(limit, ops)) + 1
  {
    var items := RunQueue(limit, ops);
    var with := ops + [OpLifecycle(Disconnected)];
    assert ops + [OpLifecycle(Disconnected), OpValue(d, x)] == with + [OpValue(d, x)];
    RunQueueSnoc(limit, ops, OpLifecycle(Disconnected));
    RunQueueSnoc(limit, with, OpValue(d, x));
    CountsOfSnoc(items, Disconnected);
    CountsOfSnoc(items + [Disconnected], ValueUpdate(d, x));
  }

  /** `limit` itself is not a bound on the queued values: for every `extra` there is a run
      with `limit + extra` of them, one short of what `MemoryBound` allows. */
  lemma {:induction false} LimitIsExceeded(limit: nat, extra: nat, d: FieldDesc, x: Delta)
    requires limit >= 1
    ensures OpsOk(Brim(limit, d, x, extra))
    ensures var items := RunQueue(limit, Brim(limit, d, x, extra));
            && CountValues(items) == limit + extra
            && CountLifecycle(items) == 1 + extra
            && TailIsValue(items)
    decreases extra
  {
    if extra == 0 {
      FillToLimit(limit, limit, d, x);
    } else {
      LimitIsExceeded(limit, extra - 1, d, x);
      OneMoreGetsIn(limit, Brim(limit, d, x, extra - 1), d, x);
    }
  }

  /** Exactly when one push takes a queue that is within its limit beyond it. */
  lemma {:induction false} ExceedsLimitIff(items: seq<Update>, limit: nat, d: FieldDesc, x: Delta)
    requires CountValues(items) <= limit
    ensures CountValues(Pushed(items, limit, d, x)) > limit
            <==> CountValues(items) == limit && !TailIsValue(items)
  {
    CountsOfSnoc(items, ValueUpdate(d, x));
    if CountValues(items) >= limit && TailIsValue(items) {
      CountsOfSnoc(items[..|items| - 1], ValueUpdate(d, Merge(items[|items| - 1].delta, x)));
    }
  }
}
