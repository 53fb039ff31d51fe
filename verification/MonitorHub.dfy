/**
 `src/pva/hub.rs`: the hub object. Its table maps ids to monitors that share one
 ready channel; a batch takes the queue of every signalled monitor still in the
 table. Steps of other threads in between are the subject of module Wakeup.
 */
module MonitorHub {
  import opened PvDesc
  import opened Updates
  import opened MonitorQueue

  function Tag(id: nat, items: seq<Update>): (r: seq<(nat, Update)>)
    ensures |r| == |items| && forall i | 0 <= i < |r| :: r[i] == (id, items[i])
  {
    seq(|items|, i requires 0 <= i < |items| => (id, items[i]))
  }

  /** The batch for the signalled `ids`: each one's items in arrival order, ids without an entry skipped. */
  function Batch(ids: seq<nat>, queues: map<nat, seq<Update>>): seq<(nat, Update)> {
    if ids == [] then []
    else
      Batch(ids[..|ids| - 1], queues)
      + if ids[|ids| - 1] in queues then Tag(ids[|ids| - 1], queues[ids[|ids| - 1]]) else []
  }

  predicate Distinct(ids: seq<nat>) {
    forall i, j | 0 <= i < j < |ids| :: ids[i] != ids[j]
  }

  class PvaMonitorHub {
    const ready: ReadyChannel
    var subs: map<nat, Monitor>
    var nextId: nat

    ghost predicate Valid()
      reads this, ready, subs.Values
    {
      && Distinct(ready.ids)
      && (forall i | 0 <= i < |ready.ids| :: ready.ids[i] < nextId)
      && (forall id | id in subs ::
            && id < nextId && subs[id].id == id && subs[id].ready == ready
            && (subs[id].signalled <==> id in ready.ids)
            && (subs[id].items != [] ==> subs[id].signalled))
    }

    /** What each registered monitor has queued. */
    ghost function Queues(): map<nat, seq<Update>>
      reads this, subs.Values
    {
      map id | id in subs :: subs[id].items
    }

    constructor ()
      ensures Valid() && subs == map[] && fresh(ready)
    {
      ready := new ReadyChannel();
      subs := map[];
      nextId := 1;
    }

    /** Register a monitor first, then signal it once it is open; one that cannot be opened is
        forgotten again, its id used up. */
    method Subscribe(limit: nat, opens: bool) returns (id: nat)
      requires Valid()
      modifies this, ready
      ensures Valid() && id !in old(subs) && nextId == old(nextId) + 1
      ensures !opens ==> subs == old(subs) && ready.ids == old(ready.ids)
      ensures opens ==>
                && subs.Keys == old(subs).Keys + {id} && fresh(subs[id])
                && (forall k | k in old(subs) :: subs[k] == old(subs)[k])
                && subs[id].items == [Disconnected] && subs[id].limit == limit
                && ready.ids == old(ready.ids) + [id]
    {
      id := nextId;
      nextId := nextId + 1;
      var m := new Monitor(id, limit, ready);
      subs := subs[id := m];
      if opens {
        m.Signal();
      } else {
        subs := subs - {id};
        assert subs == old(subs);
      }
    }

    /** Forget one monitor; what it had queued goes with it. */
    method CloseSubscription(id: nat)
      requires Valid()
      modifies this
      ensures Valid() && subs == old(subs) - {id} && nextId == old(nextId)
    {
      subs := subs - {id};
    }

    /** A lifecycle item for a registered monitor. */
    method Push(id: nat, u: Update)
      requires Valid() && id in subs
      modifies ready, subs[id]
      ensures Valid() && Queues() == old(Queues())[id := old(Queues())[id] + [u]]
      ensures ready.ids == old(ready.ids) + if id in old(ready.ids) then [] else [id]
    {
      OneMonitorAnId();
      subs[id].Push(u);
    }

    /** A decoded value for a registered monitor. */
    method PushValue(id: nat, d: FieldDesc, x: Delta)
      requires Valid() && id in subs
      modifies ready, subs[id]
      ensures Valid() && Queues() == old(Queues())[id := Pushed(old(Queues())[id], subs[id].limit, d, x)]
      ensures ready.ids == old(ready.ids) + if id in old(ready.ids) then [] else [id]
    {
      OneMonitorAnId();
      subs[id].PushValue(d, x);
    }

    lemma OneMonitorAnId()
      requires Valid()
      ensures forall j, k | j in subs && k in subs && j != k :: subs[j] != subs[k]
    {
      assert forall j | j in subs :: subs[j].id == j;
    }

    /** The body of `recv_batch` once a first token is there. */
    method RecvBatch() returns (batch: seq<(nat, Update)>)
      requires Valid() && ready.ids != []
      modifies ready, subs.Values
      ensures Valid() && subs == old(subs) && ready.ids == []
      ensures batch == Batch(old(ready.ids), old(Queues()))
      ensures forall id | id in subs :: subs[id].items == [] && !subs[id].signalled
    {
      var ids := ready.ids;
      ghost var queues := Queues();
      OneMonitorAnId();
      ready.ids := [];
      batch := [];
      var i := 0;
      while i < |ids|
        modifies subs.Values
        invariant i <= |ids| && ready.ids == []
        invariant batch == Batch(ids[..i], queues)
        invariant forall id | id in subs && id in ids[..i] :: subs[id].items == [] && !subs[id].signalled
        invariant forall id | id in subs && id !in ids[..i] ::
                    subs[id].items == queues[id] && subs[id].signalled == old(subs[id].signalled)
      {
        var id := ids[i];
        assert id !in ids[..i] && ids[..i + 1][..i] == ids[..i] && ids[..i + 1] == ids[..i] + [id];
        if id in subs {
          var taken := subs[id].Take();
          batch := batch + Tag(id, taken);
        }
        i := i + 1;
      }
      assert ids[..i] == ids;
    }
  }

  lemma {:induction false} BatchSnoc(ids: seq<nat>, queues: map<nat, seq<Update>>, last: nat, id: nat)
    ensures Part(Batch(ids + [last], queues), id)
         == Part(Batch(ids, queues), id) + if last == id && id in queues then queues[id] else []
  {
    assert (ids + [last])[..|ids|] == ids;
    if last in queues {
      PartConcat(Batch(ids, queues), Tag(last, queues[last]), id);
      PartOfTag(last, queues[last], id);
    } else {
      assert Batch(ids + [last], queues) == Batch(ids, queues);
    }
  }

  /** Each monitor's part of a batch is its queue, in order: nothing lost, nothing doubled. */
  lemma {:induction false} BatchProjection(ids: seq<nat>, queues: map<nat, seq<Update>>, id: nat)
    requires Distinct(ids)
    ensures Part(Batch(ids, queues), id) == if id in ids && id in queues then queues[id] else []
    decreases |ids|
  {
    if ids != [] {
      var init, last := ids[..|ids| - 1], ids[|ids| - 1];
      assert ids == init + [last] && last !in init;
      BatchProjection(init, queues, id);
      BatchSnoc(init, queues, last, id);
    }
  }

  function Part(batch: seq<(nat, Update)>, id: nat): seq<Update> {
    if batch == [] then []
    else
      Part(batch[..|batch| - 1], id)
      + if batch[|batch| - 1].0 == id then [batch[|batch| - 1].1] else []
  }

  lemma {:induction false} PartConcat(a: seq<(nat, Update)>, b: seq<(nat, Update)>, id: nat)
    ensures Part(a + b, id) == Part(a, id) + Part(b, id)
    decreases |b|
  {
    if b == [] {
      assert a + b == a;
    } else {
      assert (a + b)[..|a + b| - 1] == a + b[..|b| - 1];
      PartConcat(a, b[..|b| - 1], id);
    }
  }

  lemma {:induction false} PartOfTag(tag: nat, items: seq<Update>, id: nat)
    ensures Part(Tag(tag, items), id) == if tag == id then items else []
    decreases |items|
  {
    if items != [] {
      var init := items[..|items| - 1];
      assert Tag(tag, items)[..|items| - 1] == Tag(tag, init);
      PartOfTag(tag, init, id);
    }
  }

  /** The items of a batch come monitor by monitor, in the order of the tokens. */
  lemma {:induction false} BatchInOrder(ids: seq<nat>, queues: map<nat, seq<Update>>) returns (at: seq<nat>)
    ensures |at| == |Batch(ids, queues)|
    ensures forall p | 0 <= p < |at| :: at[p] < |ids| && Batch(ids, queues)[p].0 == ids[at[p]]
    ensures forall p, q | 0 <= p < q < |at| :: at[p] <= at[q]
    decreases |ids|
  {
    if ids == [] {
      at := [];
    } else {
      var n := |ids| - 1;
      var before := BatchInOrder(ids[..n], queues);
      at := before + seq(|Batch(ids, queues)| - |before|, k => n);
    }
  }
}
