/**
 What the consumer of a monitor gets over a whole run of the hub (module Wakeup): nothing that was
 pushed is lost, doubled or moved across a lifecycle item.
 */
module WakeupLoss {
  import opened MonitorQueue
  import opened QueueGist
  import opened Wakeup

  /** Everything pushed to the monitor, the item it starts with first. */
  function PushedTo(actions: seq<Action>, id: nat): seq<Update> {
    if actions == [] then []
    else
      var before := actions[..|actions| - 1];
      var h := Run(EMPTY, before);
      match actions[|actions| - 1]
      case Subscribe(_) => if h.nextId == id then [Disconnected] else PushedTo(before, id)
      case PushValue(k, d, x) => PushedTo(before, id) + if k == id && id in h.mons then [ValueUpdate(d, x)] else []
      case PushItem(k, u) => PushedTo(before, id) + if k == id && id in h.mons then [u] else []
      case _ => PushedTo(before, id)
  }

  ghost predicate KeptSoFar(h: Hub, id: nat, pushed: seq<Update>) {
    id in h.mons ==> Gist(h.mons[id].got + h.mons[id].items) == Gist(pushed)
  }

  lemma {:induction false} PushKeepsAll(h: Hub, a: Action, id: nat, pushed: seq<Update>)
    requires KeptSoFar(h, id, pushed) && (a.PushValue? || a.PushItem?) && id in h.mons
    ensures KeptSoFar(Next(h, a), id,
              if a.id != id then pushed
              else pushed + [if a.PushValue? then ValueUpdate(a.desc, a.delta) else a.item])
  {
    if a.id == id {
      var m := h.mons[id];
      match a
      case PushValue(_, d, x) =>
        GistOfPushed(m.got, m.items, m.limit, d, x);
        GistAlike(m.got + m.items, pushed, ValueUpdate(d, x));
      case PushItem(_, u) =>
        assert m.got + (m.items + [u]) == m.got + m.items + [u];
        GistAlike(m.got + m.items, pushed, u);
    }
  }

  lemma {:induction false} TakeKeepsAll(h: Hub, k: nat, id: nat, pushed: seq<Update>)
    requires KeptSoFar(h, id, pushed)
    ensures KeptSoFar(Next(h, TakeQueue(k)), id, pushed)
  {
    if k == id && id in h.mons {
      assert h.mons[id].got + h.mons[id].items + [] == h.mons[id].got + h.mons[id].items;
    }
  }

  lemma {:induction false} SubscribeKeepsAll(h: Hub, limit: nat, id: nat, pushed: seq<Update>)
    requires Inv(h) && KeptSoFar(h, id, pushed)
    ensures KeptSoFar(Next(h, Subscribe(limit)), id, if h.nextId == id then [Disconnected] else pushed)
  {
    assert [] + [Disconnected] == [Disconnected];
  }

  lemma {:induction false} OtherKeepsAll(h: Hub, a: Action, id: nat, pushed: seq<Update>)
    requires KeptSoFar(h, id, pushed) && (a.SendToken? || a.OpenDone? || a.Unregister? || a.Receive?)
    ensures KeptSoFar(Next(h, a), id, pushed)
  {
  }

  /** In every interleaving, what a monitor has handed out and still holds are the pushed items: the
      lifecycle items all there and in order, and between two of them the last of the values with
      all their marks, however often the queue squashed or was taken in between. */
  lemma {:induction false} NothingPushedIsLost(actions: seq<Action>, id: nat)
    ensures var h := Run(EMPTY, actions);
            id in h.mons ==> Gist(h.mons[id].got + h.mons[id].items) == Gist(PushedTo(actions, id))
    decreases |actions|
  {
    if actions != [] {
      var before, a := actions[..|actions| - 1], actions[|actions| - 1];
      NothingPushedIsLost(before, id);
      RunKeepsInv(before);
      var h := Run(EMPTY, before);
      if a.PushValue? || a.PushItem? {
        if id in h.mons {
          PushKeepsAll(h, a, id, PushedTo(before, id));
        }
        assert PushedTo(before, id) + [] == PushedTo(before, id);
      } else if a.Subscribe? {
        SubscribeKeepsAll(h, a.limit, id, PushedTo(before, id));
      } else if a.TakeQueue? {
        TakeKeepsAll(h, a.id, id, PushedTo(before, id));
      } else {
        OtherKeepsAll(h, a, id, PushedTo(before, id));
      }
    }
  }
}
