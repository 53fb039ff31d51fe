/**
 `run_subscription` of `src/hub.rs`: the task behind one Channel Access monitor. It
 waits for the first connection, subscribes, then forwards until it is closed; every
 turn of its loops handles whichever input `select!` happened to pick.
 */
module Subscription {
  import opened Common

  datatype Item =
    | Value(v: int)
    | Error
    | ConnectTimeout
    | Connected
    | End
    | Disconnected
    | AccessRights(read: bool, write: bool)

  datatype Event =
    | EvConnected
    | EvNativeTypeChanged
    | EvDisconnected
    | EvAccessRights(read: bool, write: bool)
    | EvLagged(connectedNow: bool)   // resynchronised from the channel itself
    | EvClosed

  datatype Ctrl = Pause | Resume | Close | Gone

  /** How phase 2 goes once the channel is connected. */
  datatype Opening = LifecycleOnly | CountFails | SubscribeFails | Subscribed

  datatype Input =
    | ConnectFails
    | ConnectDone(opening: Opening)
    | DeadlinePassed
    | ChannelEvent(ev: Event)
    | Control(c: Ctrl)
    | MonitorEnd
    | MonitorValue(v: int)
    | MonitorError

  datatype Phase = Waiting | Forwarding | Ended | CutOff

  /** `room` is how many more items the hub takes before it is closed, `None` if it stays open;
      `handle` is the monitor handle with its paused state. */
  datatype Task = Task(
    phase: Phase, connected: bool, paused: bool, deadline: bool, handle: Option<bool>,
    log: seq<Item>, room: Option<nat>)

  // ---- The specification of a turn ----

  /** A send to a closed hub ends the task at once. */
  function Sent(t: Task, item: Item): Task {
    if t.phase.CutOff? then t
    else if t.room == Some(0) then t.(phase := CutOff)
    else t.(log := t.log + [item], room := if t.room.None? then None else Some(t.room.value - 1))
  }

  function Finished(t: Task): Task {
    var t' := Sent(t, End);
    if t'.phase.CutOff? then t' else t'.(phase := Ended)
  }

  /** Connection state is forwarded as transitions only. */
  function Transition(t: Task, now: bool): Task {
    if t.connected == now then t else Sent(t.(connected := now), if now then Connected else Disconnected)
  }

  function AfterEvent(t: Task, ev: Event): Task {
    match ev
    case EvConnected => Transition(t, true)
    case EvNativeTypeChanged => Transition(t, true)
    case EvDisconnected => Transition(t, false)
    case EvAccessRights(read, write) => Sent(t, AccessRights(read, write))
    case EvLagged(now) => Transition(t, now)
    case EvClosed => Finished(t)
  }

  function Failed(t: Task): Task {
    Finished(Sent(t, Error))
  }

  /** Phase 2, entered when the wait for the first connection succeeds. */
  function Opened(t: Task, opening: Opening): Task {
    var t1 := Transition(t, true);
    if t1.phase.CutOff? then t1
    else
      match opening
      case LifecycleOnly => t1.(phase := Forwarding)
      case CountFails => Failed(t1)
      case SubscribeFails => Failed(t1)
      case Subscribed => t1.(phase := Forwarding, handle := Some(t1.paused))
  }

  function WaitTurn(t: Task, input: Input): Task {
    match input
    case ConnectFails => Failed(t)
    case ConnectDone(opening) => Opened(t, opening)
    case DeadlinePassed => if t.deadline then Sent(t.(deadline := false), ConnectTimeout) else t
    case ChannelEvent(ev) => AfterEvent(t, ev)
    case Control(c) =>
      (match c
       case Pause => t.(paused := true)
       case Resume => t.(paused := false)
       case Close => Finished(t)
       case Gone => Finished(t))
    case _ => t
  }

  function ForwardTurn(t: Task, input: Input): Task {
    match input
    case MonitorEnd => if t.handle.Some? then Finished(t) else t
    case MonitorValue(v) => if t.handle.Some? then Sent(t, Value(v)) else t
    case MonitorError => if t.handle.Some? then Sent(t, Error) else t
    case ChannelEvent(ev) => AfterEvent(t, ev)
    case Control(c) =>
      (match c
       case Pause => if t.handle.Some? then t.(handle := Some(true)) else t
       case Resume => if t.handle.Some? then t.(handle := Some(false)) else t
       case Close => Finished(t.(handle := None))
       case Gone => Finished(t.(handle := None)))
    case _ => t
  }

  /** An input whose branch is disabled is not picked; a finished task picks nothing. */
  function Turn(t: Task, input: Input): Task {
    match t.phase
    case Waiting => WaitTurn(t, input)
    case Forwarding => ForwardTurn(t, input)
    case _ => t
  }

  function Started(connected: bool, deadline: bool, room: Option<nat>): Task {
    Transition(Task(Waiting, false, false, deadline, None, [], room), connected)
  }

  function Run(connected: bool, deadline: bool, room: Option<nat>, inputs: seq<Input>): Task {
    if inputs == [] then Started(connected, deadline, room)
    else Turn(Run(connected, deadline, room, inputs[..|inputs| - 1]), inputs[|inputs| - 1])
  }

  // ---- The task itself ----

  class SubscriptionTask {
    var phase: Phase
    var connected: bool
    var paused: bool
    var deadline: bool
    var handle: Option<bool>
    var log: seq<Item>
    var room: Option<nat>

    function State(): Task
      reads this
    {
      Task(phase, connected, paused, deadline, handle, log, room)
    }

    constructor (probe: bool, deadline: bool, room: Option<nat>)
      ensures State() == Started(probe, deadline, room)
    {
      phase, connected, paused, this.deadline, handle, log, this.room := Waiting, false, false, deadline, None, [], room;
      new;
      if probe {
        connected := true;
        var _ := Send(Connected);
      }
    }

    method Send(item: Item) returns (ok: bool)
      requires !phase.CutOff?
      modifies this`log, this`room, this`phase
      ensures State() == Sent(old(State()), item) && ok == !phase.CutOff?
      ensures ok ==> phase == old(phase)
    {
      if room == Some(0) {
        phase := CutOff;
        return false;
      }
      log := log + [item];
      if room.Some? {
        room := Some(room.value - 1);
      }
      return true;
    }

    method Finish()
      requires !phase.CutOff?
      modifies this
      ensures State() == Finished(old(State()))
    {
      var ok := Send(End);
      if ok {
        phase := Ended;
      }
    }

    method Fail()
      requires !phase.CutOff?
      modifies this
      ensures State() == Failed(old(State()))
    {
      var ok := Send(Error);
      if ok {
        Finish();
      }
    }

    method ForwardEvent(ev: Event)
      requires !phase.CutOff?
      modifies this
      ensures State() == AfterEvent(old(State()), ev)
    {
      match ev
      case EvConnected =>
        if !connected {
          connected := true;
          var _ := Send(Connected);
        }
      case EvNativeTypeChanged =>
        if !connected {
          connected := true;
          var _ := Send(Connected);
        }
      case EvDisconnected =>
        if connected {
          connected := false;
          var _ := Send(Disconnected);
        }
      case EvAccessRights(read, write) =>
        var _ := Send(AccessRights(read, write));
      case EvLagged(now) =>
        if now != connected {
          connected := now;
          var _ := Send(if now then Connected else Disconnected);
        }
      case EvClosed => Finish();
    }

    method Open(opening: Opening)
      requires phase.Waiting?
      modifies this
      ensures State() == Opened(old(State()), opening)
    {
      if !connected {
        connected := true;
        var ok := Send(Connected);
        if !ok {
          return;
        }
      }
      match opening
      case LifecycleOnly => phase := Forwarding;
      case CountFails => Fail();
      case SubscribeFails => Fail();
      case Subscribed =>
        handle := Some(paused);
        phase := Forwarding;
    }

    method Wait(input: Input)
      requires phase.Waiting?
      modifies this
      ensures State() == WaitTurn(old(State()), input)
    {
      match input
      case ConnectFails => Fail();
      case ConnectDone(opening) => Open(opening);
      case DeadlinePassed =>
        if deadline {
          deadline := false;
          var _ := Send(ConnectTimeout);
        }
      case ChannelEvent(ev) => ForwardEvent(ev);
      case Control(c) =>
        if c.Pause? {
          paused := true;
        } else if c.Resume? {
          paused := false;
        } else {
          Finish();
        }
      case _ =>
    }

    method Forward(input: Input)
      requires phase.Forwarding?
      modifies this
      ensures State() == ForwardTurn(old(State()), input)
    {
      match input
      case MonitorEnd =>
        if handle.Some? {
          Finish();
        }
      case MonitorValue(v) =>
        if handle.Some? {
          var _ := Send(Value(v));
        }
      case MonitorError =>
        if handle.Some? {
          var _ := Send(Error);
        }
      case ChannelEvent(ev) => ForwardEvent(ev);
      case Control(c) =>
        if c.Pause? || c.Resume? {
          if handle.Some? {
            handle := Some(c.Pause?);
          }
        } else {
          handle := None;
          Finish();
        }
      case _ =>
    }

    method Take(input: Input)
      requires phase.Waiting? || phase.Forwarding?
      modifies this
      ensures State() == Turn(old(State()), input)
    {
      if phase.Waiting? {
        Wait(input);
      } else {
        Forward(input);
      }
    }

    /** Both loops, fed with what `select!` picks each time. */
    method RunAll(probe: bool, hasDeadline: bool, hubRoom: Option<nat>, inputs: seq<Input>)
      requires State() == Started(probe, hasDeadline, hubRoom)
      modifies this
      ensures State() == Run(probe, hasDeadline, hubRoom, inputs)
    {
      var i := 0;
      while i < |inputs| && (phase.Waiting? || phase.Forwarding?)
        invariant i <= |inputs|
        invariant State() == Run(probe, hasDeadline, hubRoom, inputs[..i])
      {
        ghost var before := State();
        Take(inputs[i]);
        RunOneMore(probe, hasDeadline, hubRoom, inputs, i, before, State());
        i := i + 1;
      }
      RunStops(probe, hasDeadline, hubRoom, inputs, i, State());
    }
  }

  lemma RunOneMore(connected: bool, deadline: bool, room: Option<nat>, inputs: seq<Input>, i: nat, t: Task, t': Task)
    requires i < |inputs| && t == Run(connected, deadline, room, inputs[..i]) && t' == Turn(t, inputs[i])
    ensures t' == Run(connected, deadline, room, inputs[..i + 1])
  {
    assert inputs[..i + 1][..i] == inputs[..i];
  }

  lemma {:induction false} RunStops(connected: bool, deadline: bool, room: Option<nat>, inputs: seq<Input>, i: nat, t: Task)
    requires i <= |inputs| && t == Run(connected, deadline, room, inputs[..i])
    requires i == |inputs| || !(t.phase.Waiting? || t.phase.Forwarding?)
    ensures Run(connected, deadline, room, inputs) == t
    decreases |inputs|
  {
    if i == |inputs| {
      assert inputs[..i] == inputs;
    } else {
      assert inputs[..|inputs| - 1][..i] == inputs[..i];
      RunStops(connected, deadline, room, inputs[..|inputs| - 1], i, t);
    }
  }

  // ---- What every run's items look like ----

  /** The connection items: true for Connected. */
  function Connections(log: seq<Item>): seq<bool> {
    if log == [] then []
    else
      Connections(log[..|log| - 1])
      + (match log[|log| - 1]
         case Connected => [true]
         case Disconnected => [false]
         case _ => [])
  }

  predicate Alternates(cs: seq<bool>) {
    forall i | 0 <= i < |cs| :: cs[i] == (i % 2 == 0)
  }

  predicate HasConnected(log: seq<Item>) {
    exists i | 0 <= i < |log| :: log[i].Connected?
  }

  /** A value comes after some Connected and no ConnectTimeout comes after a value;
      there is at most one ConnectTimeout; End, if there, is last. */
  ghost predicate WellOrdered(log: seq<Item>) {
    && (forall i | 0 <= i < |log| && log[i].Value? :: HasConnected(log[..i]))
    && (forall i, j | 0 <= i < |log| && 0 <= j < |log| && log[i].Value? && log[j].ConnectTimeout? :: j < i)
    && (forall i, j | 0 <= i < |log| && 0 <= j < |log| && log[i].ConnectTimeout? && log[j].ConnectTimeout? :: i == j)
    && (forall i | 0 <= i < |log| && log[i].End? :: i == |log| - 1)
  }

  ghost predicate NoItem(log: seq<Item>, item: Item) {
    forall i | 0 <= i < |log| :: log[i] != item
  }

  ghost predicate Inv(t: Task) {
    && Alternates(Connections(t.log))
    && (!t.phase.CutOff? ==> (|Connections(t.log)| % 2 == 1 <==> t.connected))
    && WellOrdered(t.log)
    && (t.phase.Waiting? ==> forall i | 0 <= i < |t.log| :: !t.log[i].Value?)
    && (t.phase.Forwarding? ==> HasConnected(t.log))
    && (t.deadline ==> NoItem(t.log, ConnectTimeout))
    && (t.phase.Ended? <==> t.log != [] && t.log[|t.log| - 1].End?)
  }

  /** A live task, at a point where it may still send. */
  ghost predicate Live(t: Task) {
    Inv(t) && (t.phase.Waiting? || t.phase.Forwarding?)
  }

  lemma {:induction false} HasConnectedGrows(log: seq<Item>, item: Item)
    requires HasConnected(log) || item.Connected?
    ensures HasConnected(log + [item])
  {
    if HasConnected(log) {
      var i :| 0 <= i < |log| && log[i].Connected?;
      assert (log + [item])[i].Connected?;
    } else {
      assert (log + [item])[|log|].Connected?;
    }
  }

  lemma {:induction false} OrderGrows(log: seq<Item>, item: Item)
    requires WellOrdered(log) && (log != [] ==> !log[|log| - 1].End?)
    requires item.Value? ==> HasConnected(log)
    requires item.ConnectTimeout? ==> NoItem(log, ConnectTimeout) && forall i | 0 <= i < |log| :: !log[i].Value?
    ensures WellOrdered(log + [item])
    ensures Connections(log + [item]) == Connections(log) + (if item.Connected? then [true] else if item.Disconnected? then [false] else [])
  {
    var log' := log + [item];
    assert log'[..|log|] == log;
    forall i | 0 <= i < |log'| && log'[i].Value? ensures HasConnected(log'[..i]) {
      if i < |log| {
        assert log'[..i] == log[..i];
      }
    }
  }

  /** Sending anything that is neither a connection item, a timeout nor the end. */
  lemma {:induction false} SentKeeps(t: Task, item: Item)
    requires Live(t) && (item.Error? || item.AccessRights? || (item.Value? && t.phase.Forwarding?))
    ensures Inv(Sent(t, item)) && (Sent(t, item).phase == t.phase || Sent(t, item).phase.CutOff?)
  {
    if t.room != Some(0) {
      OrderGrows(t.log, item);
      if HasConnected(t.log) {
        HasConnectedGrows(t.log, item);
      }
      assert (t.log + [item])[|t.log|] == item;
    }
  }

  lemma {:induction false} TimeoutKeeps(t: Task)
    requires Live(t) && t.phase.Waiting? && t.deadline
    ensures Inv(Sent(t.(deadline := false), ConnectTimeout))
  {
    if t.room != Some(0) {
      OrderGrows(t.log, ConnectTimeout);
    }
  }

  lemma {:induction false} TransitionKeeps(t: Task, now: bool)
    requires Live(t)
    ensures Inv(Transition(t, now))
    ensures var t' := Transition(t, now); t'.phase == t.phase || t'.phase.CutOff?
    ensures now && !Transition(t, now).phase.CutOff? ==> HasConnected(Transition(t, now).log)
  {
    if t.connected == now {
      if now {
        ConnectionsWitness(t.log);
      }
    } else {
      FlipKeeps(t);
    }
  }

  /** A change of the connection state is sent. */
  lemma {:induction false} FlipKeeps(t: Task)
    requires Live(t)
    ensures var t' := Sent(t.(connected := !t.connected), if t.connected then Disconnected else Connected);
            && Inv(t') && (t'.phase == t.phase || t'.phase.CutOff?)
            && (!t.connected && !t'.phase.CutOff? ==> HasConnected(t'.log))
  {
    var item := if t.connected then Disconnected else Connected;
    if t.room != Some(0) {
      OrderGrows(t.log, item);
      AlternationGrows(Connections(t.log), !t.connected);
      if HasConnected(t.log) || !t.connected {
        HasConnectedGrows(t.log, item);
      }
    }
  }

  lemma {:induction false} AlternationGrows(cs: seq<bool>, c: bool)
    requires Alternates(cs) && (c <==> |cs| % 2 == 0)
    ensures Alternates(cs + [c]) && (|cs + [c]| % 2 == 1 <==> c)
  {
    assert forall i | 0 <= i < |cs| :: (cs + [c])[i] == cs[i];
  }

  lemma {:induction false} ConnectionsWitness(log: seq<Item>)
    requires Connections(log) != [] && Connections(log)[0]
    ensures HasConnected(log)
    decreases |log|
  {
    var init := log[..|log| - 1];
    if Connections(init) != [] {
      ConnectionsWitness(init);
      var i :| 0 <= i < |init| && init[i].Connected?;
      assert log[i].Connected?;
    } else {
      assert log[|log| - 1].Connected?;
    }
  }

  lemma {:induction false} FinishedKeeps(t: Task)
    requires Live(t)
    ensures Inv(Finished(t)) && (Finished(t).phase.Ended? || Finished(t).phase.CutOff?)
  {
    if t.room != Some(0) {
      OrderGrows(t.log, End);
    }
  }

  lemma {:induction false} FailedKeeps(t: Task)
    requires Live(t)
    ensures Inv(Failed(t))
  {
    SentKeeps(t, Error);
    if !Sent(t, Error).phase.CutOff? {
      FinishedKeeps(Sent(t, Error));
    }
  }

  lemma {:induction false} EventKeeps(t: Task, ev: Event)
    requires Live(t)
    ensures Inv(AfterEvent(t, ev))
  {
    match ev
    case EvConnected => TransitionKeeps(t, true);
    case EvNativeTypeChanged => TransitionKeeps(t, true);
    case EvDisconnected => TransitionKeeps(t, false);
    case EvAccessRights(read, write) => SentKeeps(t, AccessRights(read, write));
    case EvLagged(now) => TransitionKeeps(t, now);
    case EvClosed => FinishedKeeps(t);
  }

  lemma {:induction false} OpenedKeeps(t: Task, opening: Opening)
    requires Live(t) && t.phase.Waiting?
    ensures Inv(Opened(t, opening))
  {
    TransitionKeeps(t, true);
    var t1 := Transition(t, true);
    if !t1.phase.CutOff? && (opening.CountFails? || opening.SubscribeFails?) {
      FailedKeeps(t1);
    }
  }

  lemma {:induction false} WaitTurnKeeps(t: Task, input: Input)
    requires Live(t) && t.phase.Waiting?
    ensures Inv(WaitTurn(t, input))
  {
    match input
    case ConnectFails => FailedKeeps(t);
    case ConnectDone(opening) => OpenedKeeps(t, opening);
    case DeadlinePassed =>
      if t.deadline {
        TimeoutKeeps(t);
      }
    case ChannelEvent(ev) => EventKeeps(t, ev);
    case Control(c) =>
      if c.Close? || c.Gone? {
        FinishedKeeps(t);
      }
    case _ =>
  }

  lemma {:induction false} ForwardTurnKeeps(t: Task, input: Input)
    requires Live(t) && t.phase.Forwarding?
    ensures Inv(ForwardTurn(t, input))
  {
    match input
    case ChannelEvent(ev) => EventKeeps(t, ev);
    case Control(c) =>
      if c.Close? || c.Gone? {
        FinishedKeeps(t.(handle := None));
      }
    case MonitorEnd => FinishedKeeps(t);
    case MonitorValue(v) => SentKeeps(t, Value(v));
    case MonitorError => SentKeeps(t, Error);
    case _ =>
  }

  lemma {:induction false} RunKeepsInv(connected: bool, deadline: bool, room: Option<nat>, inputs: seq<Input>)
    ensures Inv(Run(connected, deadline, room, inputs))
    decreases |inputs|
  {
    if inputs == [] {
      TransitionKeeps(Task(Waiting, false, false, deadline, None, [], room), connected);
    } else {
      var t := Run(connected, deadline, room, inputs[..|inputs| - 1]);
      RunKeepsInv(connected, deadline, room, inputs[..|inputs| - 1]);
      if t.phase.Waiting? {
        WaitTurnKeeps(t, inputs[|inputs| - 1]);
      } else if t.phase.Forwarding? {
        ForwardTurnKeeps(t, inputs[|inputs| - 1]);
      }
    }
  }

  // ---- The theorems ----

  /** In every run Connected and Disconnected strictly alternate, Connected first; a value
      follows some Connected; ConnectTimeout comes at most once and before any value. */
  lemma {:induction false} RunsAreWellFormed(connected: bool, deadline: bool, room: Option<nat>, inputs: seq<Input>)
    ensures var log := Run(connected, deadline, room, inputs).log;
            && Alternates(Connections(log))
            && (forall i | 0 <= i < |log| && log[i].Value? :: HasConnected(log[..i]))
            && (forall i, j | 0 <= i < |log| && 0 <= j < |log| && log[i].Value? && log[j].ConnectTimeout? :: j < i)
            && (forall i, j | 0 <= i < |log| && 0 <= j < |log|
                              && log[i].ConnectTimeout? && log[j].ConnectTimeout? :: i == j)
  {
    RunKeepsInv(connected, deadline, room, inputs);
  }

  /** A task ends with exactly one End, and it is the last item; a task that was cut off by a
      closed hub, or is still running, has sent none. */
  lemma {:induction false} ExactlyOneEndLast(connected: bool, deadline: bool, room: Option<nat>, inputs: seq<Input>)
    ensures var t := Run(connected, deadline, room, inputs);
            if t.phase.Ended? then t.log != [] && forall i | 0 <= i < |t.log| :: t.log[i].End? <==> i == |t.log| - 1
            else NoItem(t.log, End)
    ensures room.None? ==> !Run(connected, deadline, room, inputs).phase.CutOff?
  {
    RunKeepsInv(connected, deadline, room, inputs);
    EndIsLast(Run(connected, deadline, room, inputs));
    OpenHubNeverCuts(connected, deadline, inputs);
  }

  lemma {:induction false} EndIsLast(t: Task)
    requires Inv(t)
    ensures t.phase.Ended? ==> t.log != [] && forall i | 0 <= i < |t.log| :: t.log[i].End? <==> i == |t.log| - 1
    ensures !t.phase.Ended? ==> NoItem(t.log, End)
  {
    forall i | 0 <= i < |t.log| && t.log[i].End? ensures i == |t.log| - 1 && t.phase.Ended? {
    }
  }

  lemma {:induction false} OpenHubNeverCuts(connected: bool, deadline: bool, inputs: seq<Input>)
    ensures var t := Run(connected, deadline, None, inputs); !t.phase.CutOff? && t.room.None?
    decreases |inputs|
  {
    if inputs != [] {
      OpenHubNeverCuts(connected, deadline, inputs[..|inputs| - 1]);
      TurnInOpenHub(Run(connected, deadline, None, inputs[..|inputs| - 1]), inputs[|inputs| - 1]);
    }
  }

  lemma {:induction false} TurnInOpenHub(t: Task, input: Input)
    requires !t.phase.CutOff? && t.room.None?
    ensures !Turn(t, input).phase.CutOff? && Turn(t, input).room.None?
  {
    match input
    case ChannelEvent(ev) =>
    case ConnectDone(opening) =>
    case Control(c) =>
    case _ =>
  }

  /** What the last pause or resume among the inputs asked for. */
  function AskedPaused(inputs: seq<Input>): bool {
    if inputs == [] then false
    else
      match inputs[|inputs| - 1]
      case Control(Pause) => true
      case Control(Resume) => false
      case _ => AskedPaused(inputs[..|inputs| - 1])
  }

  /** As long as the task runs, the handle is paused exactly when the last pause or resume said
      so, including one that came before there was a handle. */
  lemma {:induction false} PauseIsRemembered(connected: bool, deadline: bool, room: Option<nat>, inputs: seq<Input>)
    ensures var t := Run(connected, deadline, room, inputs);
            && (t.phase.Waiting? ==> t.paused == AskedPaused(inputs) && t.handle.None?)
            && (t.phase.Forwarding? && t.handle.Some? ==> t.handle == Some(AskedPaused(inputs)))
    decreases |inputs|
  {
    if inputs != [] {
      PauseIsRemembered(connected, deadline, room, inputs[..|inputs| - 1]);
      TurnAndPause(Run(connected, deadline, room, inputs[..|inputs| - 1]), inputs[|inputs| - 1]);
    }
  }

  /** One turn changes the wish only by a pause or a resume; opening hands it to the handle. */
  lemma {:induction false} TurnAndPause(t: Task, input: Input)
    requires t.phase.Waiting? ==> t.handle.None?
    ensures var t' := Turn(t, input);
            var asks := input.Control? && (input.c.Pause? || input.c.Resume?);
            && (t'.phase.Waiting? ==>
                  t.phase.Waiting? && t'.handle.None? && t'.paused == if asks then input.c.Pause? else t.paused)
            && (t'.phase.Forwarding? && t'.handle.Some? ==>
                  && (t.phase.Waiting? ==> t'.handle.value == t.paused && !asks)
                  && (t.phase.Forwarding? ==>
                        t.handle.Some? && t'.handle.value == if asks then input.c.Pause? else t.handle.value))
            && (t'.phase.Waiting? || t'.phase.Forwarding? ==> t.phase.Waiting? || t.phase.Forwarding?)
  {
    match input
    case ChannelEvent(ev) =>
    case ConnectDone(opening) =>
    case Control(c) =>
    case _ =>
  }
}
