/**
 The pull side of a Channel Access monitor (`src/ca.rs`, `CaSubscription`): `recv` hands out
 one item, `recv_batch` everything already queued behind the first one. The one item a batch
 looked at but may not contain waits in `stashed` for the next call.
 */
module Stream {
  import opened Common

  /** What the monitor handle yields: a snapshot, an error, or that the stream is over.
      A handle past its end keeps yielding `Over`. */
  datatype Item = Snapshot(v: int) | Fault(code: int) | Over

  /** What a call gives its caller. `GaveUp` is a call cut off by its timeout or by `close`
      before the first item came. */
  datatype Outcome = GaveUp | One(item: Item) | Batch(values: seq<int>)

  /** `ready` is how many items the handle turns out to have there by the time it is polled for
      them; what arrives during the call is included. */
  datatype Call = Recv(ready: nat) | RecvBatch(maxItems: nat, ready: nat)

  datatype Monitor = Monitor(stashed: Option<Item>, unread: seq<Item>)

  /** Everything still to come, in order. */
  function Pending(m: Monitor): seq<Item> {
    if m.stashed.Some? then [m.stashed.value] + m.unread else m.unread
  }

  function Available(m: Monitor, call: Call): nat {
    var there := if call.ready < |m.unread| then call.ready else |m.unread|;
    there + if m.stashed.Some? then 1 else 0
  }

  /** 0 stands for no cap. */
  predicate Below(n: nat, maxItems: nat) {
    maxItems == 0 || n < maxItems
  }

  /** What is stashed is never a snapshot. */
  predicate Valid(m: Monitor) {
    m.stashed.Some? ==> !m.stashed.value.Snapshot?
  }

  function Snapshots(values: seq<int>): (items: seq<Item>)
    ensures |items| == |values|
    ensures forall i | 0 <= i < |values| :: items[i] == Snapshot(values[i])
  {
    seq(|values|, i requires 0 <= i < |values| => Snapshot(values[i]))
  }

  /** The items an outcome hands over. */
  function Handed(o: Outcome): seq<Item> {
    match o
    case GaveUp => []
    case One(item) => [item]
    case Batch(values) => Snapshots(values)
  }

  /** A batch is non-empty, within the cap and stops no earlier than it has to: at the cap, at
      the last item that is there, or before an item that is not a snapshot. */
  ghost predicate GoodBatch(n: nat, maxItems: nat, available: nat, pending: seq<Item>) {
    && 0 < n <= available <= |pending|
    && (maxItems == 0 || n <= maxItems)
    && (n == maxItems || n == available || !pending[n].Snapshot?)
  }

  /** What one call may do: nothing if no item is there, else hand over the next items in order. */
  ghost predicate Serves(m: Monitor, call: Call, o: Outcome, m': Monitor) {
    var pending := Pending(m);
    var available := Available(m, call);
    && Pending(m) == Handed(o) + Pending(m')
    && Valid(m')
    && (o.GaveUp? <==> available == 0)
    && (o.GaveUp? ==> m' == m)
    && (o.One? ==> call.RecvBatch? ==> !o.item.Snapshot?)
    && (o.Batch? ==> call.RecvBatch? && GoodBatch(|o.values|, call.maxItems, available, pending))
  }

  /** Half-way through a batch: `items` are taken, `left` more may be had from `unread`. */
  ghost predicate Gathering(items: seq<int>, unread: seq<Item>, left: nat, pending: seq<Item>, available: nat) {
    && pending == Snapshots(items) + unread
    && available == |items| + if left < |unread| then left else |unread|
  }

  lemma {:induction false} GatherOne(
    items: seq<int>, next: Item, unread: seq<Item>, left: nat, pending: seq<Item>, available: nat)
    requires Gathering(items, [next] + unread, left, pending, available) && left > 0 && next.Snapshot?
    ensures Gathering(items + [next.v], unread, left - 1, pending, available)
  {
    assert Snapshots(items + [next.v]) == Snapshots(items) + [next];
    assert Snapshots(items) + ([next] + unread) == (Snapshots(items) + [next]) + unread;
  }

  lemma {:induction false} GatherStop(
    items: seq<int>, next: Item, unread: seq<Item>, left: nat, pending: seq<Item>, available: nat)
    requires Gathering(items, [next] + unread, left, pending, available) && left > 0
    ensures |items| < available <= |pending| && pending[|items|] == next
  {
  }

  class CaSubscription {
    var stashed: Option<Item>
    var unread: seq<Item>

    function State(): Monitor
      reads this
    {
      Monitor(stashed, unread)
    }

    constructor (stream: seq<Item>)
      ensures State() == Monitor(None, stream)
    {
      stashed, unread := None, stream;
    }

    /** `Monitor::next` and `Monitor::try_next`: the stash first, then the handle, which has an
        item only if `ready` says so; `None` is a handle that is still waiting. */
    method Next(ready: nat) returns (item: Option<Item>, left: nat)
      modifies this
      ensures item.None? ==> State() == old(State()) && stashed.None? && (ready == 0 || unread == [])
      ensures item.Some? ==> stashed.None? && [item.value] + unread == Pending(old(State()))
      ensures left == if old(stashed).None? && item.Some? then ready - 1 else ready
    {
      if stashed.Some? {
        item, left := stashed, ready;
        stashed := None;
      } else if ready == 0 || unread == [] {
        item, left := None, ready;
      } else {
        item, left := Some(unread[0]), ready - 1;
        unread := unread[1..];
      }
    }

    method DoRecv(ready: nat) returns (o: Outcome)
      requires Valid(State())
      modifies this
      ensures Serves(old(State()), Recv(ready), o, State())
    {
      var item, _ := Next(ready);
      o := if item.None? then GaveUp else One(item.value);
    }

    method DoRecvBatch(maxItems: nat, ready: nat) returns (o: Outcome)
      requires Valid(State())
      modifies this
      ensures Serves(old(State()), RecvBatch(maxItems, ready), o, State())
    {
      ghost var pending := Pending(State());
      ghost var available := Available(State(), RecvBatch(maxItems, ready));
      var first, left := Next(ready);
      if first.None? {
        return GaveUp;
      }
      if !first.value.Snapshot? {
        return One(first.value);
      }
      var items := [first.value.v];
      assert Snapshots(items) == [first.value];
      while Below(|items|, maxItems)
        invariant left >= 0 && stashed.None?
        invariant |items| > 0 && (maxItems == 0 || |items| <= maxItems)
        invariant Gathering(items, unread, left, pending, available)
        decreases |unread|
      {
        ghost var before, had := unread, left;
        var next, left' := Next(left);
        left := left';
        if next.None? {
          break;
        }
        assert before == [next.value] + unread;
        if !next.value.Snapshot? {
          GatherStop(items, next.value, unread, had, pending, available);
          stashed := next;
          return Batch(items);
        }
        GatherOne(items, next.value, unread, had, pending, available);
        items := items + [next.value.v];
      }
      return Batch(items);
    }

    /** Any mix of calls. */
    method Drain(calls: seq<Call>) returns (log: seq<Outcome>)
      requires Valid(State())
      modifies this
      ensures exists states :: Session(old(State()), calls, log, states) && states[|calls|] == State()
    {
      log := [];
      ghost var states := [State()];
      var i := 0;
      while i < |calls|
        invariant i <= |calls| && |log| == i && Valid(State())
        invariant Session(old(State()), calls[..i], log, states) && states[i] == State()
      {
        var o;
        match calls[i] {
          case Recv(ready) => o := DoRecv(ready);
          case RecvBatch(maxItems, ready) => o := DoRecvBatch(maxItems, ready);
        }
        log := log + [o];
        states := states + [State()];
        i := i + 1;
      }
      assert calls[..i] == calls;
    }
  }

  /** `states` are the monitor's states between the calls. */
  ghost predicate Session(m: Monitor, calls: seq<Call>, log: seq<Outcome>, states: seq<Monitor>) {
    && Valid(m)
    && |log| == |calls| && |states| == |calls| + 1 && states[0] == m
    && (forall i | 0 <= i < |calls| :: Serves(states[i], calls[i], log[i], states[i + 1]))
  }

  function HandedOver(log: seq<Outcome>): seq<Item> {
    if log == [] then [] else HandedOver(log[..|log| - 1]) + Handed(log[|log| - 1])
  }

  /** Whatever the mix of `recv`, `recv_batch` and calls that gave up, what was handed over, then
      the stash, then what is unread are together the monitor's stream: nothing is lost,
      repeated or reordered; and the stash only ever holds an error or the end. */
  lemma {:induction false} StreamIsFaithful(m: Monitor, calls: seq<Call>, log: seq<Outcome>, states: seq<Monitor>)
    requires Session(m, calls, log, states)
    ensures HandedOver(log) + Pending(states[|calls|]) == Pending(m)
    ensures Valid(states[|calls|])
    decreases |calls|
  {
    if calls != [] {
      var n := |calls| - 1;
      SessionSoFar(m, calls, log, states);
      StreamIsFaithful(m, calls[..n], log[..n], states[..n + 1]);
      Regroup(HandedOver(log[..n]), Handed(log[n]), Pending(states[n + 1]));
    }
  }

  lemma Regroup(a: seq<Item>, b: seq<Item>, c: seq<Item>)
    ensures (a + b) + c == a + (b + c)
  {
  }

  /** All but the last call of a session. */
  lemma {:induction false} SessionSoFar(m: Monitor, calls: seq<Call>, log: seq<Outcome>, states: seq<Monitor>)
    requires Session(m, calls, log, states) && calls != []
    ensures var n := |calls| - 1;
            && Session(m, calls[..n], log[..n], states[..n + 1])
            && states[..n + 1][n] == states[n]
            && Serves(states[n], calls[n], log[n], states[n + 1])
  {
    var n := |calls| - 1;
    forall i | 0 <= i < n ensures Serves(states[..n + 1][i], calls[..n][i], log[..n][i], states[..n + 1][i + 1]) {
      assert Serves(states[i], calls[i], log[i], states[i + 1]);
    }
  }

  /** How the calls are cut up does not show: of two sessions on the same stream, one is handed
      a prefix of what the other is handed. */
  lemma {:induction false} BatchingIsInvisible(
    m: Monitor, calls1: seq<Call>, log1: seq<Outcome>, states1: seq<Monitor>,
    calls2: seq<Call>, log2: seq<Outcome>, states2: seq<Monitor>)
    requires Session(m, calls1, log1, states1) && Session(m, calls2, log2, states2)
    ensures HandedOver(log1) <= HandedOver(log2) || HandedOver(log2) <= HandedOver(log1)
  {
    StreamIsFaithful(m, calls1, log1, states1);
    StreamIsFaithful(m, calls2, log2, states2);
    var all := Pending(m);
    assert HandedOver(log1) == all[..|HandedOver(log1)|];
    assert HandedOver(log2) == all[..|HandedOver(log2)|];
  }

  /** An error or the end is handed over alone, by whichever call reaches it, and no call skips
      it: the call after a batch that stopped at it gets it even if nothing new has arrived. */
  lemma {:induction false} StashComesNext(m: Monitor, call: Call, o: Outcome, m': Monitor)
    requires Valid(m) && m.stashed.Some? && Serves(m, call, o, m')
    ensures o == One(m.stashed.value) && Pending(m') == m.unread
  {
    assert Pending(m)[0] == m.stashed.value && Available(m, call) > 0;
    assert Handed(o) != [] && (Handed(o) + Pending(m'))[0] == Handed(o)[0];
    assert o.One?;
    assert Pending(m') == Pending(m)[1..];
  }

  /** No stall: once an item is there a call never gives up, and a patient reader taking every
      item is handed the whole stream. */
  lemma {:induction false} EverythingIsReached(m: Monitor, calls: seq<Call>, log: seq<Outcome>, states: seq<Monitor>)
    requires Session(m, calls, log, states)
    requires forall i | 0 <= i < |calls| :: calls[i].ready > 0
    ensures |HandedOver(log)| >= |calls| || HandedOver(log) == Pending(m)
    decreases |calls|
  {
    if calls != [] {
      var n := |calls| - 1;
      SessionSoFar(m, calls, log, states);
      EverythingIsReached(m, calls[..n], log[..n], states[..n + 1]);
      StreamIsFaithful(m, calls[..n], log[..n], states[..n + 1]);
      if Pending(states[n]) == [] {
        assert Handed(log[n]) == [];
      } else {
        assert Handed(log[n]) != [];
      }
    }
  }
}
