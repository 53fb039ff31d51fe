/**
 `src/pva/hub.rs`: the hub's wake-up protocol. A push sets `signalled` under the
 queue's lock and sends the token after unlocking; the drainer receives tokens
 one by one and takes the queues of the monitors still registered. Every such
 step is its own action, so a run is any interleaving of pushers, drainer,
 `subscribe` and `close_subscription`.
 */
module Wakeup {
  import opened PvDesc
  import opened Updates
  import opened MonitorQueue

  /** `ready` is set when `subscribe` has opened the monitor and signalled it. */
  datatype Mon = Mon(
    items: seq<Update>, limit: nat, signalled: bool, registered: bool, ready: bool, got: seq<Update>)

  datatype Hub = Hub(
    mons: map<nat, Mon>,
    nextId: nat,
    sending: multiset<nat>,   // flag set, token not yet sent
    channel: seq<nat>,        // the ready channel
    drained: multiset<nat>)   // received, queue not yet taken

  datatype Action =
    | Subscribe(limit: nat)
    | PushValue(id: nat, desc: FieldDesc, delta: Delta)
    | PushItem(id: nat, item: Update)
    | SendToken(id: nat)
    | OpenDone(id: nat)
    | Unregister(id: nat)     // the open failed, or the subscription was closed
    | Receive
    | TakeQueue(id: nat)

  const EMPTY := Hub(map[], 1, multiset{}, [], multiset{})

  function Tokens(h: Hub): multiset<nat> {
    h.sending + multiset(h.channel) + h.drained
  }

  /** Store the monitor's new queue and make sure it is signalled. */
  function Signal(h: Hub, id: nat, m: Mon): Hub {
    h.(mons := h.mons[id := m.(signalled := true)],
       sending := if m.signalled then h.sending else h.sending + multiset{id})
  }

  function Next(h: Hub, a: Action): Hub {
    match a
    case Subscribe(limit) =>
      h.(mons := h.mons[h.nextId := Mon([Disconnected], if limit < 1 then 1 else limit, false, true, false, [])],
         nextId := h.nextId + 1)
    case PushValue(id, d, x) =>
      if id !in h.mons then h
      else Signal(h, id, h.mons[id].(items := Pushed(h.mons[id].items, h.mons[id].limit, d, x)))
    case PushItem(id, item) =>
      if id !in h.mons then h
      else Signal(h, id, h.mons[id].(items := h.mons[id].items + [item]))
    case SendToken(id) =>
      if id !in h.sending then h
      else h.(sending := h.sending - multiset{id}, channel := h.channel + [id])
    case OpenDone(id) =>
      if id !in h.mons || h.mons[id].ready then h
      else Signal(h, id, h.mons[id].(ready := true))
    case Unregister(id) =>
      if id !in h.mons then h
      else h.(mons := h.mons[id := h.mons[id].(registered := false)])
    case Receive =>
      if h.channel == [] then h
      else h.(channel := h.channel[1..], drained := h.drained + multiset{h.channel[0]})
    case TakeQueue(id) =>
      if id !in h.drained then h
      else
        var h1 := h.(drained := h.drained - multiset{id});
        if id !in h.mons || !h.mons[id].registered then h1
        else
          var m := h.mons[id];
          h1.(mons := h.mons[id := m.(items := [], signalled := false, got := m.got + m.items)])
  }

  function Run(h: Hub, actions: seq<Action>): Hub {
    if actions == [] then h else Next(Run(h, actions[..|actions| - 1]), actions[|actions| - 1])
  }

  // ---- The invariant ----

  /** `signalled` holds exactly when one token exists, for as long as the monitor is registered. */
  predicate TokenOk(h: Hub, id: nat)
    requires id in h.mons
  {
    && Tokens(h)[id] <= 1
    && (Tokens(h)[id] == 1 ==> h.mons[id].signalled)
    && (h.mons[id].registered && h.mons[id].signalled ==> Tokens(h)[id] == 1)
  }

  /** Nothing waits unsignalled, but for the first item of a monitor still being opened. */
  predicate WaitOk(m: Mon) {
    m.items != [] && !m.signalled ==> !m.ready && m.items == [Disconnected] && m.got == []
  }

  ghost predicate Inv(h: Hub) {
    && (forall id | id in h.mons :: id < h.nextId && TokenOk(h, id) && WaitOk(h.mons[id]))
    && (forall id :: id in Tokens(h) ==> id in h.mons)
  }

  lemma {:induction false} SignalKeeps(h: Hub, id: nat, m: Mon)
    requires Inv(h) && id in h.mons
    requires m.signalled == h.mons[id].signalled && m.registered == h.mons[id].registered
    ensures Inv(Signal(h, id, m))
  {
    var h' := Signal(h, id, m);
    assert Tokens(h') == Tokens(h) + if m.signalled then multiset{} else multiset{id};
    forall k | k in h'.mons ensures k < h'.nextId && TokenOk(h', k) && WaitOk(h'.mons[k]) {
      assert k in h.mons && TokenOk(h, k);
    }
  }

  /** A step that only moves a token along keeps the invariant. */
  lemma {:induction false} TokenMoveKeeps(h: Hub, h': Hub)
    requires Inv(h) && Tokens(h') == Tokens(h) && h'.nextId == h.nextId && h'.mons == h.mons
    ensures Inv(h')
  {
    forall k | k in h'.mons ensures TokenOk(h', k) {
      assert TokenOk(h, k);
    }
  }

  lemma {:induction false} SubscribeKeeps(h: Hub, limit: nat)
    requires Inv(h)
    ensures Inv(Next(h, Subscribe(limit)))
  {
    var h' := Next(h, Subscribe(limit));
    assert h.nextId !in Tokens(h) && Tokens(h') == Tokens(h);
    forall k | k in h'.mons ensures k < h'.nextId && TokenOk(h', k) && WaitOk(h'.mons[k]) {
      assert k != h.nextId ==> k in h.mons && TokenOk(h, k) && WaitOk(h.mons[k]);
    }
  }

  lemma {:induction false} UnregisterKeeps(h: Hub, id: nat)
    requires Inv(h)
    ensures Inv(Next(h, Unregister(id)))
  {
    var h' := Next(h, Unregister(id));
    assert Tokens(h') == Tokens(h);
    forall k | k in h'.mons ensures k < h'.nextId && TokenOk(h', k) && WaitOk(h'.mons[k]) {
      assert TokenOk(h, k) && WaitOk(h.mons[k]);
    }
  }

  lemma {:induction false} TakeKeeps(h: Hub, id: nat)
    requires Inv(h) && id in h.drained
    ensures Inv(Next(h, TakeQueue(id)))
  {
    var h' := Next(h, TakeQueue(id));
    assert Tokens(h') == Tokens(h) - multiset{id};
    assert id in Tokens(h);
    forall k | k in h'.mons ensures k < h'.nextId && TokenOk(h', k) && WaitOk(h'.mons[k]) {
      assert TokenOk(h, k) && WaitOk(h.mons[k]);
    }
  }

  /** A push, or the end of an opening: the steps that signal. */
  lemma {:induction false} SignallingKeeps(h: Hub, a: Action)
    requires Inv(h) && (a.PushValue? || a.PushItem? || a.OpenDone?)
    ensures Inv(Next(h, a))
  {
    if a.id in h.mons {
      var m := h.mons[a.id];
      match a
      case PushValue(id, d, x) => SignalKeeps(h, id, m.(items := Pushed(m.items, m.limit, d, x)));
      case PushItem(id, item) => SignalKeeps(h, id, m.(items := m.items + [item]));
      case OpenDone(id) => SignalKeeps(h, id, m.(ready := true));
    }
  }

  lemma {:induction false} SendKeeps(h: Hub, id: nat)
    requires Inv(h)
    ensures Inv(Next(h, SendToken(id)))
  {
    SentTokens(h, id);
    TokenMoveKeeps(h, Next(h, SendToken(id)));
  }

  lemma {:induction false} ReceiveKeeps(h: Hub)
    requires Inv(h)
    ensures Inv(Next(h, Receive))
  {
    ReceivedTokens(h);
    TokenMoveKeeps(h, Next(h, Receive));
  }

  lemma {:induction false} StepKeepsInv(h: Hub, a: Action)
    requires Inv(h)
    ensures Inv(Next(h, a))
  {
    match a
    case Subscribe(limit) => SubscribeKeeps(h, limit);
    case SendToken(id) => SendKeeps(h, id);
    case Unregister(id) => UnregisterKeeps(h, id);
    case Receive => ReceiveKeeps(h);
    case TakeQueue(id) =>
      if id in h.drained {
        TakeKeeps(h, id);
      }
    case _ => SignallingKeeps(h, a);
  }

  lemma {:induction false} SentTokens(h: Hub, id: nat)
    ensures Tokens(Next(h, SendToken(id))) == Tokens(h)
  {
    assert multiset(h.channel + [id]) == multiset(h.channel) + multiset{id};
  }

  lemma {:induction false} ReceivedTokens(h: Hub)
    ensures Tokens(Next(h, Receive)) == Tokens(h)
  {
    if h.channel != [] {
      assert h.channel == [h.channel[0]] + h.channel[1..];
    }
  }

  lemma {:induction false} RunKeepsInv(actions: seq<Action>)
    ensures Inv(Run(EMPTY, actions))
    decreases |actions|
  {
    if actions != [] {
      RunKeepsInv(actions[..|actions| - 1]);
      StepKeepsInv(Run(EMPTY, actions[..|actions| - 1]), actions[|actions| - 1]);
    }
  }

  // ---- The theorems ----

  /** In every interleaving an opened, registered monitor with something queued has exactly
      one token under way; and no id is ever drained twice at once. */
  lemma {:induction false} NoLostWakeup(actions: seq<Action>, id: nat)
    ensures var h := Run(EMPTY, actions);
            && h.drained[id] <= 1
            && (id in h.mons && !WasClosed(actions, id) ==>
                  && Tokens(h)[id] == (if h.mons[id].signalled then 1 else 0)
                  && (WasOpened(actions, id) && h.mons[id].items != [] ==> h.mons[id].signalled))
  {
    RunKeepsInv(actions);
    ClosedIff(actions, id);
    OpenedIff(actions, id);
    var h := Run(EMPTY, actions);
    if id in h.mons {
      assert TokenOk(h, id) && WaitOk(h.mons[id]);
    } else {
      assert id !in Tokens(h);
    }
  }

  /** Only the hub's own steps: no push, nothing from the application. */
  predicate HubOnly(actions: seq<Action>) {
    forall i | 0 <= i < |actions| ::
      actions[i].SendToken? || actions[i].Receive? || actions[i].TakeQueue?
  }

  lemma {:induction false} RunConcat(h: Hub, a: seq<Action>, b: seq<Action>)
    ensures Run(h, a + b) == Run(Run(h, a), b)
    decreases |b|
  {
    if b == [] {
      assert a + b == a;
    } else {
      assert (a + b)[..|a + b| - 1] == a + b[..|b| - 1];
      RunConcat(h, a, b[..|b| - 1]);
    }
  }

  lemma {:induction false} RunCons(h: Hub, a: Action, rest: seq<Action>)
    ensures Run(h, [a] + rest) == Run(Next(h, a), rest)
  {
    RunConcat(h, [a], rest);
    assert [a][..0] == [];
  }

  /** How far a monitor's token is from being taken. */
  function Distance(h: Hub, id: nat): nat {
    if id in h.drained then 0
    else if id in h.channel then 1 + |h.channel|
    else 2 + |h.channel| + 1
  }

  /** The step that brings the token one place further. */
  function Forward(h: Hub, id: nat): Action {
    if id in h.drained then TakeQueue(id)
    else if id in h.channel then Receive
    else SendToken(id)
  }

  lemma {:induction false} ReceiveIsCloser(h: Hub, id: nat)
    requires id in h.channel && id !in h.drained
    ensures var h1 := Next(h, Receive); h1.mons == h.mons && Distance(h1, id) < Distance(h, id)
  {
    assert h.channel == [h.channel[0]] + h.channel[1..];
  }

  lemma {:induction false} SendIsCloser(h: Hub, id: nat)
    requires id in h.sending && id !in h.channel && id !in h.drained
    ensures var h1 := Next(h, SendToken(id)); h1.mons == h.mons && Distance(h1, id) < Distance(h, id)
  {
    var h1 := Next(h, SendToken(id));
    assert h1.channel[|h.channel|] == id;
  }

  lemma {:induction false} ForwardIsCloser(h: Hub, id: nat)
    requires Inv(h) && id in Tokens(h) && id !in h.drained
    ensures var h1 := Next(h, Forward(h, id));
            h1.mons == h.mons && id in Tokens(h1) && Distance(h1, id) < Distance(h, id)
  {
    if id in h.channel {
      ReceivedTokens(h);
      ReceiveIsCloser(h, id);
    } else {
      SentTokens(h, id);
      SendIsCloser(h, id);
    }
  }

  /** A wake-up that is under way arrives: the hub can finish it without any further push. */
  lemma {:induction false} WakeupArrives(h: Hub, id: nat) returns (schedule: seq<Action>)
    requires Inv(h) && id in h.mons && h.mons[id].registered && id in Tokens(h)
    ensures HubOnly(schedule)
    ensures var h' := Run(h, schedule);
            && id in h'.mons
            && h'.mons[id].items == [] && h'.mons[id].got == h.mons[id].got + h.mons[id].items
    decreases Distance(h, id)
  {
    var a := Forward(h, id);
    var h1 := Next(h, a);
    var rest := [];
    if id !in h.drained {
      ForwardIsCloser(h, id);
      StepKeepsInv(h, a);
      rest := WakeupArrives(h1, id);
    }
    schedule := [a] + rest;
    RunCons(h, a, rest);
  }

  /** Together: whatever the interleaving so far, what an opened monitor has queued can be
      delivered by the hub's own steps. */
  lemma {:induction false} QueuedIsDeliverable(actions: seq<Action>, id: nat) returns (schedule: seq<Action>)
    requires WasOpened(actions, id) && !WasClosed(actions, id)
    requires var h := Run(EMPTY, actions); id in h.mons && h.mons[id].items != []
    ensures HubOnly(schedule)
    ensures var h := Run(EMPTY, actions);
            var h' := Run(EMPTY, actions + schedule);
            && id in h'.mons
            && h'.mons[id].items == [] && h'.mons[id].got == h.mons[id].got + h.mons[id].items
  {
    RunKeepsInv(actions);
    NoLostWakeup(actions, id);
    ClosedIff(actions, id);
    schedule := WakeupArrives(Run(EMPTY, actions), id);
    RunConcat(EMPTY, actions, schedule);
  }

  /** A token may be raised for nothing: opening a monitor whose queue was already taken
      signals it with an empty queue. This run reaches such a state. */
  lemma {:induction false} EmptyWakeup(item: Update)
    ensures var h1 := Next(EMPTY, Subscribe(4));
            var h2 := Next(h1, PushItem(1, item));
            var h3 := Next(h2, SendToken(1));
            var h4 := Next(h3, Receive);
            var h5 := Next(h4, TakeQueue(1));
            var h6 := Next(h5, OpenDone(1));
            Idle(h6, 1) && 1 in Tokens(h6)
  {
    var h3 := Next(Next(Next(EMPTY, Subscribe(4)), PushItem(1, item)), SendToken(1));
    assert h3.channel == [1];
    var h5 := Next(Next(h3, Receive), TakeQueue(1));
    assert h5.mons[1].items == [] && !h5.mons[1].signalled && !h5.mons[1].ready;
  }

  predicate Idle(h: Hub, id: nat) {
    id in h.mons && h.mons[id].signalled && h.mons[id].items == []
  }

  lemma {:induction false} SignalIdle(h: Hub, id: nat, m: Mon, k: nat)
    requires id in h.mons && !Idle(h, k)
    ensures Idle(Signal(h, id, m), k) <==> k == id && m.items == []
  {
  }

  lemma {:induction false} PushIsNotIdle(h: Hub, a: Action, id: nat)
    requires !Idle(h, id) && (a.PushValue? || a.PushItem?)
    ensures !Idle(Next(h, a), id)
  {
    if a.id in h.mons {
      var m := h.mons[a.id];
      match a
      case PushValue(k, d, x) =>
        assert Pushed(m.items, m.limit, d, x) != [];
        SignalIdle(h, k, m.(items := Pushed(m.items, m.limit, d, x)), id);
      case PushItem(k, item) => SignalIdle(h, k, m.(items := m.items + [item]), id);
    }
  }

  lemma {:induction false} TakeIsNotIdle(h: Hub, a: Action, id: nat)
    requires !Idle(h, id) && !a.PushValue? && !a.PushItem? && !a.OpenDone?
    ensures !Idle(Next(h, a), id)
  {
  }

  /** Exactly there is a monitor signalled with nothing queued: a step does so if and only if it
      completes the opening of a monitor that is unsignalled and already emptied. */
  lemma {:induction false} EmptyWakeupOnlyAtOpen(h: Hub, a: Action, id: nat)
    requires Inv(h) && !Idle(h, id)
    ensures Idle(Next(h, a), id)
            <==> a == OpenDone(id) && id in h.mons && !h.mons[id].ready && h.mons[id].items == []
  {
    match a
    case OpenDone(k) =>
      if k in h.mons && !h.mons[k].ready {
        SignalIdle(h, k, h.mons[k].(ready := true), id);
      }
    case PushValue(_, _, _) => PushIsNotIdle(h, a, id);
    case PushItem(_, _) => PushIsNotIdle(h, a, id);
    case _ => TakeIsNotIdle(h, a, id);
  }

  // ---- Tokens that hand nothing over ----

  /** What taking the queue for a drained token gives. */
  function Handed(h: Hub, id: nat): seq<Update> {
    if id in h.mons && h.mons[id].registered then h.mons[id].items else []
  }

  /** The monitor was closed, or its open failed, at some point of the run. */
  predicate WasClosed(actions: seq<Action>, id: nat) {
    actions != [] &&
      var before := actions[..|actions| - 1];
      || WasClosed(before, id)
      || (actions[|actions| - 1] == Unregister(id) && id in Run(EMPTY, before).mons)
  }

  /** The monitor's opening completed at some point of the run. */
  predicate WasOpened(actions: seq<Action>, id: nat) {
    actions != [] &&
      var before := actions[..|actions| - 1];
      || WasOpened(before, id)
      || (actions[|actions| - 1] == OpenDone(id) && id in Run(EMPTY, before).mons)
  }

  lemma {:induction false} OpenedIff(actions: seq<Action>, id: nat)
    ensures var h := Run(EMPTY, actions);
            && (WasOpened(actions, id) ==> id in h.mons)
            && (id in h.mons ==> (WasOpened(actions, id) <==> h.mons[id].ready))
    decreases |actions|
  {
    if actions != [] {
      var before := actions[..|actions| - 1];
      OpenedIff(before, id);
      RunKeepsInv(before);
      StepOpens(Run(EMPTY, before), actions[|actions| - 1], id);
    }
  }

  /** Only the completed opening opens. */
  ghost predicate Opens(h: Hub, a: Action, h': Hub, id: nat) {
    && (id in h.mons ==> id in h'.mons && (h'.mons[id].ready <==> h.mons[id].ready || a == OpenDone(id)))
    && (id !in h.mons && id in h'.mons ==> !h'.mons[id].ready)
  }

  lemma {:induction false} SignalOpens(h: Hub, a: Action, id: nat)
    requires a.PushValue? || a.PushItem? || a.OpenDone?
    ensures Opens(h, a, Next(h, a), id)
  {
  }

  lemma {:induction false} StepOpens(h: Hub, a: Action, id: nat)
    requires Inv(h)
    ensures Opens(h, a, Next(h, a), id)
  {
    if a.PushValue? || a.PushItem? || a.OpenDone? {
      SignalOpens(h, a, id);
    } else if a.Subscribe? {
      assert h.nextId !in h.mons;
    }
  }

  /** The monitor's opening completed when its queue had been taken and no token was under way;
      nothing was pushed, and the queue was not taken, since. */
  predicate OpenedOnNothing(actions: seq<Action>, id: nat) {
    actions != [] &&
      var before := actions[..|actions| - 1];
      var h := Run(EMPTY, before);
      match actions[|actions| - 1]
      case OpenDone(k) =>
        if k == id && id in h.mons && !WasOpened(before, id) && !h.mons[id].signalled then h.mons[id].items == []
        else OpenedOnNothing(before, id)
      case PushValue(k, _, _) => !(k == id && id in h.mons) && OpenedOnNothing(before, id)
      case PushItem(k, _) => !(k == id && id in h.mons) && OpenedOnNothing(before, id)
      case TakeQueue(k) => !(k == id && id in h.drained) && OpenedOnNothing(before, id)
      case _ => OpenedOnNothing(before, id)
  }

  lemma {:induction false} ClosedIff(actions: seq<Action>, id: nat)
    ensures var h := Run(EMPTY, actions);
            && (WasClosed(actions, id) ==> id in h.mons)
            && (id in h.mons ==> (WasClosed(actions, id) <==> !h.mons[id].registered))
    decreases |actions|
  {
    if actions != [] {
      var before := actions[..|actions| - 1];
      ClosedIff(before, id);
      RunKeepsInv(before);
      StepRegisters(Run(EMPTY, before), actions[|actions| - 1], id);
    }
  }

  /** Only unregistering unregisters. */
  ghost predicate Registers(h: Hub, a: Action, h': Hub, id: nat) {
    && (id in h.mons ==> id in h'.mons && (h'.mons[id].registered <==> h.mons[id].registered && a != Unregister(id)))
    && (id !in h.mons && id in h'.mons ==> h'.mons[id].registered && a.Subscribe?)
  }

  lemma {:induction false} SignalRegisters(h: Hub, a: Action, id: nat)
    requires a.PushValue? || a.PushItem? || a.OpenDone?
    ensures Registers(h, a, Next(h, a), id)
  {
  }

  lemma {:induction false} TakeRegisters(h: Hub, a: Action, id: nat)
    requires a.TakeQueue?
    ensures Registers(h, a, Next(h, a), id)
  {
  }

  lemma {:induction false} StepRegisters(h: Hub, a: Action, id: nat)
    requires Inv(h)
    ensures Registers(h, a, Next(h, a), id)
  {
    if a.PushValue? || a.PushItem? || a.OpenDone? {
      SignalRegisters(h, a, id);
    } else if a.TakeQueue? {
      TakeRegisters(h, a, id);
    } else if a.Subscribe? {
      assert h.nextId !in h.mons;
    }
  }

  /** For a registered monitor: signalled with nothing queued. */
  ghost predicate NothingFits(h: Hub, id: nat, nothing: bool) {
    id in h.mons && h.mons[id].registered ==> (nothing <==> Idle(h, id))
  }

  lemma {:induction false} SignalStepFits(h: Hub, a: Action, id: nat, nothing: bool)
    requires Inv(h) && NothingFits(h, id, nothing) && (a.PushValue? || a.PushItem? || a.OpenDone?)
    ensures NothingFits(Next(h, a), id,
              if a.id == id && id in h.mons && !a.OpenDone? then false
              else if a == OpenDone(id) && id in h.mons && !h.mons[id].ready && !h.mons[id].signalled then h.mons[id].items == []
              else nothing)
  {
    if a.id in h.mons && a.PushValue? {
      assert Pushed(h.mons[a.id].items, h.mons[a.id].limit, a.desc, a.delta) != [];
    }
  }

  /** Neither a new monitor nor the way of a token nor a close touches a queue or its flag. */
  lemma {:induction false} QuietStep(h: Hub, a: Action, id: nat)
    requires Inv(h) && id in h.mons && (a.Subscribe? || a.SendToken? || a.Receive? || a.Unregister?)
    ensures var m, mons' := h.mons[id], Next(h, a).mons;
            && id in mons' && mons'[id].items == m.items && mons'[id].signalled == m.signalled
            && (mons'[id].registered ==> m.registered)
  {
    if a.Subscribe? {
      assert h.nextId != id;
    }
  }

  lemma {:induction false} TakeStepFits(h: Hub, k: nat, id: nat, nothing: bool)
    requires Inv(h) && NothingFits(h, id, nothing)
    ensures NothingFits(Next(h, TakeQueue(k)), id, if k == id && id in h.drained then false else nothing)
  {
  }

  lemma {:induction false} OtherStepFits(h: Hub, a: Action, id: nat, nothing: bool)
    requires Inv(h) && NothingFits(h, id, nothing) && !a.PushValue? && !a.PushItem? && !a.OpenDone?
    requires id !in h.mons ==> !nothing
    ensures NothingFits(Next(h, a), id, if a == TakeQueue(id) && id in h.drained then false else nothing)
  {
    if a.TakeQueue? {
      TakeStepFits(h, a.id, id, nothing);
    } else if id in h.mons {
      QuietStep(h, a, id);
    } else {
      assert id in Next(h, a).mons ==> Next(h, a).mons[id].items == [Disconnected];
    }
  }

  lemma {:induction false} NothingIsIdle(actions: seq<Action>, id: nat)
    ensures NothingFits(Run(EMPTY, actions), id, OpenedOnNothing(actions, id))
    ensures id !in Run(EMPTY, actions).mons ==> !OpenedOnNothing(actions, id)
    decreases |actions|
  {
    if actions != [] {
      var before, a := actions[..|actions| - 1], actions[|actions| - 1];
      var h := Run(EMPTY, before);
      NothingIsIdle(before, id);
      OpenedIff(before, id);
      RunKeepsInv(before);
      StepRegisters(h, a, id);
      if a.PushValue? || a.PushItem? || a.OpenDone? {
        SignalStepFits(h, a, id, OpenedOnNothing(before, id));
      } else {
        OtherStepFits(h, a, id, OpenedOnNothing(before, id));
      }
    }
  }

  /** In every interleaving, taking a drained token's queue hands nothing over exactly when the
      monitor was closed before, or the token was raised by an opening that completed on an
      emptied queue and nothing was pushed since. */
  lemma {:induction false} NothingHandedIff(actions: seq<Action>, id: nat)
    requires id in Run(EMPTY, actions).drained
    ensures Handed(Run(EMPTY, actions), id) == [] <==> WasClosed(actions, id) || OpenedOnNothing(actions, id)
  {
    var h := Run(EMPTY, actions);
    RunKeepsInv(actions);
    assert id in Tokens(h) && TokenOk(h, id);
    ClosedIff(actions, id);
    NothingIsIdle(actions, id);
  }

  predicate Takes(h: Hub, a: Action) {
    a.TakeQueue? && a.id in h.drained
  }

  /** Everything the takes among `actions` hand over. */
  function HandedOver(h: Hub, actions: seq<Action>): seq<Update> {
    if actions == [] then []
    else
      var before, a := actions[..|actions| - 1], actions[|actions| - 1];
      HandedOver(h, before) + if Takes(Run(h, before), a) then Handed(Run(h, before), a.id) else []
  }

  /** Step `k` takes no queue, or one of the two kinds. */
  predicate GivesNothing(before: seq<Action>, batch: seq<Action>, k: nat)
    requires k < |batch|
  {
    var so_far := before + batch[..k];
    Takes(Run(EMPTY, so_far), batch[k]) ==> WasClosed(so_far, batch[k].id) || OpenedOnNothing(so_far, batch[k].id)
  }

  lemma {:induction false} LastGives(before: seq<Action>, batch: seq<Action>)
    requires batch != []
    ensures var n := |batch| - 1;
            HandedOver(Run(EMPTY, before), batch) == []
            <==> HandedOver(Run(EMPTY, before), batch[..n]) == [] && GivesNothing(before, batch, n)
  {
    var n := |batch| - 1;
    RunConcat(EMPTY, before, batch[..n]);
    if Takes(Run(EMPTY, before + batch[..n]), batch[n]) {
      NothingHandedIff(before + batch[..n], batch[n].id);
    }
  }

  lemma PrefixGives(before: seq<Action>, batch: seq<Action>, n: nat, k: nat)
    requires k < n <= |batch|
    ensures GivesNothing(before, batch[..n], k) <==> GivesNothing(before, batch, k)
  {
    assert batch[..n][..k] == batch[..k];
  }

  predicate AllGiveNothing(before: seq<Action>, batch: seq<Action>) {
    batch != [] ==> AllGiveNothing(before, batch[..|batch| - 1]) && GivesNothing(before, batch, |batch| - 1)
  }

  lemma OneMoreGives(before: seq<Action>, batch: seq<Action>, n: nat)
    requires n < |batch|
    ensures AllGiveNothing(before, batch[..n + 1]) <==> AllGiveNothing(before, batch[..n]) && GivesNothing(before, batch, n)
  {
    assert batch[..n + 1][..n] == batch[..n];
    PrefixGives(before, batch, n + 1, n);
  }

  lemma {:induction false} AllGive(before: seq<Action>, batch: seq<Action>, n: nat)
    requires n <= |batch|
    ensures AllGiveNothing(before, batch[..n]) <==> forall k | 0 <= k < n :: GivesNothing(before, batch, k)
    decreases n
  {
    if n > 0 {
      AllGive(before, batch, n - 1);
      OneMoreGives(before, batch, n - 1);
      if AllGiveNothing(before, batch[..n]) {
        forall k | 0 <= k < n ensures GivesNothing(before, batch, k) {
          assert k < n - 1 || k == n - 1;
        }
      }
    }
  }

  lemma {:induction false} EmptyIfAllGive(before: seq<Action>, batch: seq<Action>)
    ensures HandedOver(Run(EMPTY, before), batch) == [] <==> AllGiveNothing(before, batch)
    decreases |batch|
  {
    if batch != [] {
      EmptyIfAllGive(before, batch[..|batch| - 1]);
      LastGives(before, batch);
    }
  }

  /** So a batch, its takes mixed with whatever else happens meanwhile, is empty exactly when each
      of its tokens is of one of the two kinds. */
  lemma {:induction false} EmptyBatchIff(before: seq<Action>, batch: seq<Action>)
    ensures HandedOver(Run(EMPTY, before), batch) == []
      <==> forall k | 0 <= k < |batch| :: GivesNothing(before, batch, k)
  {
    EmptyIfAllGive(before, batch);
    AllGive(before, batch, |batch|);
    assert batch[..|batch|] == batch;
  }

  /** The first kind does occur: a monitor closed while its token is under way. */
  lemma {:induction false} ClosedWakeup(limit: nat) returns (actions: seq<Action>)
    ensures 1 in Run(EMPTY, actions).drained && WasClosed(actions, 1) && Handed(Run(EMPTY, actions), 1) == []
  {
    var h1 := Next(EMPTY, Subscribe(limit));
    var h2 := Next(h1, OpenDone(1));
    var h3 := Next(h2, SendToken(1));
    var h4 := Next(h3, Unregister(1));
    assert h4.channel == [1];
    var h5 := Next(h4, Receive);
    actions := [Subscribe(limit)] + ([OpenDone(1)] + ([SendToken(1)] + ([Unregister(1)] + ([Receive] + []))));
    RunCons(h4, Receive, []);
    RunCons(h3, Unregister(1), [Receive] + []);
    RunCons(h2, SendToken(1), [Unregister(1)] + ([Receive] + []));
    RunCons(h1, OpenDone(1), [SendToken(1)] + ([Unregister(1)] + ([Receive] + [])));
    RunCons(EMPTY, Subscribe(limit), [OpenDone(1)] + ([SendToken(1)] + ([Unregister(1)] + ([Receive] + []))));
    ClosedIff(actions, 1);
  }
}
