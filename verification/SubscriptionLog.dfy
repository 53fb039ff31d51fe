/**
 What a subscription (module Subscription) sends, told from its inputs alone: nothing that is due
 is swallowed, and a hub that closes has a prefix of it.
 */
module SubscriptionLog {
  import opened Common
  import opened Subscription

  // ---- Everything that is due is sent ----

  /** How far a subscription is, told from the inputs alone. */
  datatype Life = NotYet | Up(monitored: bool) | Over

  function LifeAfter(inputs: seq<Input>): Life {
    if inputs == [] then NotYet
    else
      var life, input := LifeAfter(inputs[..|inputs| - 1]), inputs[|inputs| - 1];
      var closes := (input.ChannelEvent? && input.ev.EvClosed?) || (input.Control? && (input.c.Close? || input.c.Gone?));
      match life
      case Over => Over
      case NotYet =>
        if closes || input.ConnectFails? then Over
        else if !input.ConnectDone? then NotYet
        else if input.opening.CountFails? || input.opening.SubscribeFails? then Over
        else Up(input.opening.Subscribed?)
      case Up(monitored) =>
        if closes || (monitored && input.MonitorEnd?) then Over else life
  }

  /** An error of the monitor, or the one that ends the wait or the subscribing. */
  predicate Errs(life: Life, input: Input) {
    || (input.MonitorError? && life == Up(true))
    || (life.NotYet? && (input.ConnectFails?
                         || (input.ConnectDone? && (input.opening.CountFails? || input.opening.SubscribeFails?))))
  }

  /** A deadline was set and passed during the wait. */
  function TimeoutDue(deadline: bool, inputs: seq<Input>): bool {
    inputs != [] &&
      var before := inputs[..|inputs| - 1];
      TimeoutDue(deadline, before) || (deadline && inputs[|inputs| - 1].DeadlinePassed? && LifeAfter(before).NotYet?)
  }

  /** What the last report said about the connection. */
  function Reported(probe: bool, inputs: seq<Input>): bool {
    if inputs == [] then probe
    else
      var before := inputs[..|inputs| - 1];
      if LifeAfter(before).Over? then Reported(probe, before)
      else
        match inputs[|inputs| - 1]
        case ChannelEvent(EvConnected) => true
        case ChannelEvent(EvNativeTypeChanged) => true
        case ChannelEvent(EvDisconnected) => false
        case ChannelEvent(EvLagged(now)) => now
        case ConnectDone(_) => LifeAfter(before).NotYet? || Reported(probe, before)
        case _ => Reported(probe, before)
  }

  function ChangeItem(was: bool, now: bool): seq<Item> {
    if was != now then [if now then Connected else Disconnected] else []
  }

  function ValueItem(life: Life, input: Input): seq<Item> {
    if input.MonitorValue? && life == Up(true) then [Value(input.v)] else []
  }

  function RightsItem(life: Life, input: Input): seq<Item> {
    if input.ChannelEvent? && input.ev.EvAccessRights? && !life.Over? then [AccessRights(input.ev.read, input.ev.write)]
    else []
  }

  function ErrorItem(life: Life, input: Input): seq<Item> {
    if Errs(life, input) then [Error] else []
  }

  function TimeoutItem(life: Life, timeoutLeft: bool, input: Input): seq<Item> {
    if timeoutLeft && input.DeadlinePassed? && life.NotYet? then [ConnectTimeout] else []
  }

  /** Every change of what is reported, the first connection included. */
  function ChangesDue(probe: bool, inputs: seq<Input>): seq<Item> {
    if inputs == [] then ChangeItem(false, probe)
    else
      var before := inputs[..|inputs| - 1];
      ChangesDue(probe, before) + ChangeItem(Reported(probe, before), Reported(probe, inputs))
  }

  /** The monitor values that came while the handle was there. */
  function ValuesDue(inputs: seq<Input>): seq<Item> {
    if inputs == [] then []
    else
      var before := inputs[..|inputs| - 1];
      ValuesDue(before) + ValueItem(LifeAfter(before), inputs[|inputs| - 1])
  }

  function RightsDue(inputs: seq<Input>): seq<Item> {
    if inputs == [] then []
    else
      var before := inputs[..|inputs| - 1];
      RightsDue(before) + RightsItem(LifeAfter(before), inputs[|inputs| - 1])
  }

  function ErrorsDue(inputs: seq<Input>): seq<Item> {
    if inputs == [] then []
    else
      var before := inputs[..|inputs| - 1];
      ErrorsDue(before) + ErrorItem(LifeAfter(before), inputs[|inputs| - 1])
  }

  datatype Kind = Connection | OfValue | OfRights | OfError | OfTimeout | OfEnd

  function KindOf(item: Item): Kind {
    match item
    case Connected => Connection
    case Disconnected => Connection
    case Value(_) => OfValue
    case AccessRights(_, _) => OfRights
    case Error => OfError
    case ConnectTimeout => OfTimeout
    case End => OfEnd
  }

  /** The items of one kind, in order. */
  function Of(log: seq<Item>, kind: Kind): seq<Item> {
    if log == [] then []
    else
      Of(log[..|log| - 1], kind) + if KindOf(log[|log| - 1]) == kind then [log[|log| - 1]] else []
  }

  /** The item of its own that an input adds, if any. */
  function OwnItem(life: Life, timeoutLeft: bool, input: Input): seq<Item> {
    if Errs(life, input) then [Error]
    else
      match input
      case MonitorValue(_) => ValueItem(life, input)
      case ChannelEvent(_) => RightsItem(life, input)
      case DeadlinePassed => TimeoutItem(life, timeoutLeft, input)
      case _ => []
  }

  /** What one input has the task send: `was` and `now` are what was and is reported, `ends` is that
      the input ends the task. */
  function Adds(life: Life, was: bool, now: bool, timeoutLeft: bool, input: Input, ends: bool): seq<Item> {
    ChangeItem(was, now) + OwnItem(life, timeoutLeft, input) + if ends then [End] else []
  }

  /** Everything due, in the order the inputs came. */
  function LogDue(probe: bool, deadline: bool, inputs: seq<Input>): seq<Item> {
    if inputs == [] then (if probe then [Connected] else [])
    else
      var before := inputs[..|inputs| - 1];
      LogDue(probe, deadline, before)
      + Adds(LifeAfter(before), Reported(probe, before), Reported(probe, inputs),
             deadline && !TimeoutDue(deadline, before), inputs[|inputs| - 1],
             LifeAfter(inputs).Over? && !LifeAfter(before).Over?)
  }

  /** A task in an open hub that has sent what is due. */
  ghost predicate UpToDate(t: Task, life: Life, reported: bool, timeoutLeft: bool, due: seq<Item>) {
    && t.room.None? && !t.phase.CutOff?
    && (t.phase.Waiting? <==> life.NotYet?) && (t.phase.Ended? <==> life.Over?)
    && (life.NotYet? ==> (t.deadline <==> timeoutLeft) && t.handle.None?)
    && (life.Up? ==> (t.handle.Some? <==> life.monitored))
    && t.connected == reported
    && t.log == due
  }

  lemma SentOpen(t: Task, item: Item)
    requires t.room.None? && !t.phase.CutOff?
    ensures Sent(t, item) == t.(log := t.log + [item])
  {
  }

  lemma TransitionOpen(t: Task, now: bool)
    requires t.room.None? && !t.phase.CutOff?
    ensures Transition(t, now)
         == t.(connected := now, log := t.log + if t.connected == now then [] else [if now then Connected else Disconnected])
  {
    assert t.log + [] == t.log;
  }

  lemma FinishedOpen(t: Task)
    requires t.room.None? && !t.phase.CutOff?
    ensures Finished(t) == t.(phase := Ended, log := t.log + [End])
  {
  }

  lemma FailedOpen(t: Task)
    requires t.room.None? && !t.phase.CutOff?
    ensures Failed(t) == t.(phase := Ended, log := t.log + [Error, End])
  {
    assert t.log + [Error] + [End] == t.log + [Error, End];
  }

  function Says(ev: Event, was: bool): bool {
    match ev
    case EvConnected => true
    case EvNativeTypeChanged => true
    case EvDisconnected => false
    case EvLagged(now) => now
    case _ => was
  }

  lemma {:induction false} EventOpen(t: Task, ev: Event, life: Life, timeoutLeft: bool)
    requires UpToDate(t, life, t.connected, timeoutLeft, t.log) && !life.Over?
    ensures UpToDate(AfterEvent(t, ev), if ev.EvClosed? then Over else life, Says(ev, t.connected), timeoutLeft,
                     t.log + Adds(life, t.connected, Says(ev, t.connected), timeoutLeft, ChannelEvent(ev), ev.EvClosed?))
  {
    var now := Says(ev, t.connected);
    match ev
    case EvAccessRights(read, write) =>
      SentOpen(t, AccessRights(read, write));
    case EvClosed =>
      FinishedOpen(t);
    case _ =>
      TransitionOpen(t, now);
      assert AfterEvent(t, ev) == Transition(t, now);
  }

  lemma {:induction false} OpenedOpen(t: Task, opening: Opening, timeoutLeft: bool)
    requires UpToDate(t, NotYet, t.connected, timeoutLeft, t.log)
    ensures var fails := opening.CountFails? || opening.SubscribeFails?;
            UpToDate(Opened(t, opening), if fails then Over else Up(opening.Subscribed?), true, timeoutLeft,
                     t.log + Adds(NotYet, t.connected, true, timeoutLeft, ConnectDone(opening), fails))
  {
    TransitionOpen(t, true);
    if opening.CountFails? || opening.SubscribeFails? {
      var t1 := Transition(t, true);
      FailedOpen(t1);
      assert t1.log + [Error, End] == t.log + Adds(NotYet, t.connected, true, timeoutLeft, ConnectDone(opening), true);
    }
  }

  lemma {:induction false} WaitOpen(t: Task, input: Input, timeoutLeft: bool, ends: bool)
    requires UpToDate(t, NotYet, t.connected, timeoutLeft, t.log) && !input.ChannelEvent? && !input.ConnectDone?
    requires ends <==> input.ConnectFails? || (input.Control? && (input.c.Close? || input.c.Gone?))
    ensures UpToDate(WaitTurn(t, input), if ends then Over else NotYet, t.connected, timeoutLeft && !input.DeadlinePassed?,
                     t.log + Adds(NotYet, t.connected, t.connected, timeoutLeft, input, ends))
  {
    match input
    case ConnectFails =>
      FailedOpen(t);
      assert Adds(NotYet, t.connected, t.connected, timeoutLeft, input, ends) == [Error, End];
    case DeadlinePassed => SentOpen(t.(deadline := false), ConnectTimeout);
    case Control(control) => FinishedOpen(t);
    case _ =>
  }

  lemma {:induction false} ForwardOpen(t: Task, input: Input, life: Life, timeoutLeft: bool, ends: bool)
    requires UpToDate(t, life, t.connected, timeoutLeft, t.log) && life.Up? && !input.ChannelEvent?
    requires ends <==> (input.Control? && (input.c.Close? || input.c.Gone?)) || (life.monitored && input.MonitorEnd?)
    ensures UpToDate(ForwardTurn(t, input), if ends then Over else life, t.connected, timeoutLeft,
                     t.log + Adds(life, t.connected, t.connected, timeoutLeft, input, ends))
  {
    match input
    case MonitorEnd => FinishedOpen(t);
    case MonitorValue(v) => SentOpen(t, Value(v));
    case MonitorError => SentOpen(t, Error);
    case Control(control) => FinishedOpen(t.(handle := None));
    case _ =>
  }

  lemma {:induction false} TurnUpToDate(probe: bool, deadline: bool, inputs: seq<Input>, t: Task)
    requires inputs != []
    requires var before := inputs[..|inputs| - 1];
             UpToDate(t, LifeAfter(before), Reported(probe, before), deadline && !TimeoutDue(deadline, before),
                      LogDue(probe, deadline, before))
    ensures UpToDate(Turn(t, inputs[|inputs| - 1]), LifeAfter(inputs), Reported(probe, inputs),
                     deadline && !TimeoutDue(deadline, inputs), LogDue(probe, deadline, inputs))
  {
    var before, input := inputs[..|inputs| - 1], inputs[|inputs| - 1];
    var life, left := LifeAfter(before), deadline && !TimeoutDue(deadline, before);
    var ends := LifeAfter(inputs).Over? && !life.Over?;
    if life.Over? {
      assert Adds(life, t.connected, t.connected, left, input, ends) == [];
    } else if input.ChannelEvent? {
      EventOpen(t, input.ev, life, left);
    } else if life.Up? {
      ForwardOpen(t, input, life, left, ends);
    } else if input.ConnectDone? {
      OpenedOpen(t, input.opening, left);
    } else {
      WaitOpen(t, input, left, ends);
    }
  }

  lemma {:induction false} RunUpToDate(probe: bool, deadline: bool, inputs: seq<Input>)
    ensures UpToDate(Run(probe, deadline, None, inputs), LifeAfter(inputs), Reported(probe, inputs),
                     deadline && !TimeoutDue(deadline, inputs), LogDue(probe, deadline, inputs))
    decreases |inputs|
  {
    if inputs == [] {
      TransitionOpen(Task(Waiting, false, false, deadline, None, [], None), probe);
    } else {
      RunUpToDate(probe, deadline, inputs[..|inputs| - 1]);
      TurnUpToDate(probe, deadline, inputs, Run(probe, deadline, None, inputs[..|inputs| - 1]));
    }
  }

  // ---- Kind by kind ----

  lemma {:induction false} OfConcat(a: seq<Item>, b: seq<Item>, kind: Kind)
    ensures Of(a + b, kind) == Of(a, kind) + Of(b, kind)
    decreases |b|
  {
    if b == [] {
      assert a + b == a;
    } else {
      assert (a + b)[..|a + b| - 1] == a + b[..|b| - 1];
      OfConcat(a, b[..|b| - 1], kind);
    }
  }

  /** `items` has at most one item. */
  function Keep(items: seq<Item>, kind: Kind): seq<Item> {
    if items != [] && KindOf(items[0]) == kind then items else []
  }

  lemma OfOne(items: seq<Item>, kind: Kind)
    requires |items| <= 1
    ensures Of(items, kind) == Keep(items, kind)
  {
    if items != [] {
      assert items[..0] == [];
    }
  }

  /** What is due of one kind. */
  function Due(probe: bool, deadline: bool, inputs: seq<Input>, kind: Kind): seq<Item> {
    match kind
    case Connection => ChangesDue(probe, inputs)
    case OfValue => ValuesDue(inputs)
    case OfRights => RightsDue(inputs)
    case OfError => ErrorsDue(inputs)
    case OfTimeout => if TimeoutDue(deadline, inputs) then [ConnectTimeout] else []
    case OfEnd => if LifeAfter(inputs).Over? then [End] else []
  }

  lemma {:induction false} OfAdds(log: seq<Item>, change: seq<Item>, own: seq<Item>, end: seq<Item>, kind: Kind)
    requires |change| <= 1 && |own| <= 1 && |end| <= 1
    ensures Of(log + (change + own + end), kind) == Of(log, kind) + (Keep(change, kind) + Keep(own, kind) + Keep(end, kind))
  {
    OfConcat(log, change + own + end, kind);
    OfConcat(change + own, end, kind);
    OfConcat(change, own, kind);
    OfOne(change, kind);
    OfOne(own, kind);
    OfOne(end, kind);
  }

  /** The input's own item, kind by kind. */
  lemma {:induction false} OwnByKind(life: Life, left: bool, input: Input)
    ensures var own := OwnItem(life, left, input);
            && |own| <= 1 && (own != [] ==> KindOf(own[0]) != Connection && KindOf(own[0]) != OfEnd)
            && Keep(own, OfValue) == ValueItem(life, input) && Keep(own, OfRights) == RightsItem(life, input)
            && Keep(own, OfError) == ErrorItem(life, input) && Keep(own, OfTimeout) == TimeoutItem(life, left, input)
  {
  }

  lemma {:induction false} OverStays(inputs: seq<Input>)
    requires inputs != [] && LifeAfter(inputs[..|inputs| - 1]).Over?
    ensures LifeAfter(inputs).Over?
  {
  }

  lemma KeepAll(change: seq<Item>, own: seq<Item>, end: seq<Item>, kind: Kind)
    requires |change| <= 1 && (change != [] ==> KindOf(change[0]) == Connection)
    requires |own| <= 1 && (own != [] ==> KindOf(own[0]) != Connection && KindOf(own[0]) != OfEnd)
    requires |end| <= 1 && (end != [] ==> KindOf(end[0]) == OfEnd)
    ensures Keep(change, kind) + Keep(own, kind) + Keep(end, kind)
         == if kind.Connection? then change else if kind.OfEnd? then end else Keep(own, kind)
  {
  }

  lemma {:induction false} DueGrows(probe: bool, deadline: bool, inputs: seq<Input>, kind: Kind)
    requires inputs != []
    ensures var before, input := inputs[..|inputs| - 1], inputs[|inputs| - 1];
            var change := ChangeItem(Reported(probe, before), Reported(probe, inputs));
            var own := OwnItem(LifeAfter(before), deadline && !TimeoutDue(deadline, before), input);
            var end := if LifeAfter(inputs).Over? && !LifeAfter(before).Over? then [End] else [];
            && |own| <= 1
            && Due(probe, deadline, inputs, kind)
               == Due(probe, deadline, before, kind) + (Keep(change, kind) + Keep(own, kind) + Keep(end, kind))
  {
    var before, input := inputs[..|inputs| - 1], inputs[|inputs| - 1];
    var life, left := LifeAfter(before), deadline && !TimeoutDue(deadline, before);
    OwnByKind(life, left, input);
    KeepAll(ChangeItem(Reported(probe, before), Reported(probe, inputs)), OwnItem(life, left, input),
            if LifeAfter(inputs).Over? && !life.Over? then [End] else [], kind);
    if life.Over? {
      OverStays(inputs);
    }
    match kind
    case Connection =>
    case OfValue =>
    case OfRights =>
    case OfError =>
    case OfTimeout =>
    case OfEnd =>
  }

  lemma {:induction false} ItemsDue(probe: bool, deadline: bool, inputs: seq<Input>, kind: Kind)
    ensures Of(LogDue(probe, deadline, inputs), kind) == Due(probe, deadline, inputs, kind)
    decreases |inputs|
  {
    if inputs == [] {
      OfOne(LogDue(probe, deadline, inputs), kind);
    } else {
      var before, input := inputs[..|inputs| - 1], inputs[|inputs| - 1];
      var life, left := LifeAfter(before), deadline && !TimeoutDue(deadline, before);
      var change, own := ChangeItem(Reported(probe, before), Reported(probe, inputs)), OwnItem(life, left, input);
      var end := if LifeAfter(inputs).Over? && !life.Over? then [End] else [];
      ItemsDue(probe, deadline, before, kind);
      DueGrows(probe, deadline, inputs, kind);
      OfAdds(LogDue(probe, deadline, before), change, own, end, kind);
    }
  }

  /** In an open hub nothing that is due is swallowed and nothing else is sent: the values of the log
      are the monitor values that came while there was a handle, in order; so are the access rights and
      the errors; the connection items are the changes of what was reported, so the last one agrees with
      the last report; and the task has ended, with one End, exactly if something ended it. */
  lemma {:induction false} EverythingDueIsSent(probe: bool, deadline: bool, inputs: seq<Input>)
    ensures var t := Run(probe, deadline, None, inputs);
            && (forall kind :: Of(t.log, kind) == Due(probe, deadline, inputs, kind))
            && LastIs(ChangesDue(probe, inputs), Reported(probe, inputs))
            && (t.phase.Ended? <==> LifeAfter(inputs).Over?)
  {
    RunUpToDate(probe, deadline, inputs);
    forall kind ensures Of(LogDue(probe, deadline, inputs), kind) == Due(probe, deadline, inputs, kind) {
      ItemsDue(probe, deadline, inputs, kind);
    }
    LastChange(probe, inputs);
  }

  /** The last of the connection items agrees; with none there never was a connection. */
  predicate LastIs(changes: seq<Item>, reported: bool) {
    if changes == [] then !reported else changes[|changes| - 1] == if reported then Connected else Disconnected
  }

  lemma {:induction false} LastChange(probe: bool, inputs: seq<Input>)
    ensures LastIs(ChangesDue(probe, inputs), Reported(probe, inputs))
    decreases |inputs|
  {
    if inputs != [] {
      LastChange(probe, inputs[..|inputs| - 1]);
    }
  }

  // ---- A hub that closes ----

  /** `t` is `open` in a hub that takes only so many items, or was cut off from what `open` sends. */
  ghost predicate Follows(t: Task, open: Task, room: nat) {
    && open.room.None? && !open.phase.CutOff? && t.room.Some?
    && if t.phase.CutOff? then t.log <= open.log && |t.log| == room
       else t == open.(room := t.room) && |t.log| + t.room.value == room
  }

  lemma {:induction false} SentFollows(t: Task, open: Task, room: nat, item: Item)
    requires Follows(t, open, room)
    ensures Follows(Sent(t, item), Sent(open, item), room)
  {
  }

  lemma {:induction false} FinishedFollows(t: Task, open: Task, room: nat)
    requires Follows(t, open, room) && !t.phase.CutOff?
    ensures Follows(Finished(t), Finished(open), room)
  {
    SentFollows(t, open, room, End);
  }

  lemma {:induction false} FailedFollows(t: Task, open: Task, room: nat)
    requires Follows(t, open, room) && !t.phase.CutOff?
    ensures Follows(Failed(t), Failed(open), room)
  {
    SentFollows(t, open, room, Error);
    SentFollows(Sent(t, Error), Sent(open, Error), room, End);
  }

  lemma {:induction false} TransitionFollows(t: Task, open: Task, room: nat, now: bool)
    requires Follows(t, open, room) && !t.phase.CutOff?
    ensures Follows(Transition(t, now), Transition(open, now), room)
  {
    if t.connected != now {
      SentFollows(t.(connected := now), open.(connected := now), room, if now then Connected else Disconnected);
    }
  }

  lemma {:induction false} EventFollows(t: Task, open: Task, room: nat, ev: Event)
    requires Follows(t, open, room) && !t.phase.CutOff?
    ensures Follows(AfterEvent(t, ev), AfterEvent(open, ev), room)
  {
    match ev
    case EvConnected => TransitionFollows(t, open, room, true);
    case EvNativeTypeChanged => TransitionFollows(t, open, room, true);
    case EvDisconnected => TransitionFollows(t, open, room, false);
    case EvAccessRights(read, write) => SentFollows(t, open, room, AccessRights(read, write));
    case EvLagged(now) => TransitionFollows(t, open, room, now);
    case EvClosed => FinishedFollows(t, open, room);
  }

  lemma {:induction false} OpenedFollows(t: Task, open: Task, room: nat, opening: Opening)
    requires Follows(t, open, room) && !t.phase.CutOff?
    ensures Follows(Opened(t, opening), Opened(open, opening), room)
  {
    TransitionFollows(t, open, room, true);
    var t1, open1 := Transition(t, true), Transition(open, true);
    if opening.CountFails? || opening.SubscribeFails? {
      SentFollows(t1, open1, room, Error);
      SentFollows(Sent(t1, Error), Sent(open1, Error), room, End);
    }
  }

  /** An open hub's log only grows. */
  lemma {:induction false} LogGrows(open: Task, input: Input)
    requires open.room.None? && !open.phase.CutOff?
    ensures open.log <= Turn(open, input).log && Turn(open, input).room.None? && !Turn(open, input).phase.CutOff?
  {
    TurnInOpenHub(open, input);
    match input
    case ChannelEvent(ev) => EventGrows(open, ev);
    case ConnectDone(opening) =>
    case Control(c) =>
    case _ =>
  }

  lemma EventGrows(open: Task, ev: Event)
    requires open.room.None? && !open.phase.CutOff?
    ensures open.log <= AfterEvent(open, ev).log
  {
    match ev
    case EvAccessRights(read, write) => SentOpen(open, AccessRights(read, write));
    case EvClosed => FinishedOpen(open);
    case _ => TransitionOpen(open, Says(ev, open.connected));
  }

  lemma {:induction false} WaitFollows(t: Task, open: Task, room: nat, input: Input)
    requires Follows(t, open, room) && t.phase.Waiting?
    ensures Follows(WaitTurn(t, input), WaitTurn(open, input), room)
  {
    match input
    case ConnectFails => FailedFollows(t, open, room);
    case ConnectDone(opening) => OpenedFollows(t, open, room, opening);
    case DeadlinePassed => SentFollows(t.(deadline := false), open.(deadline := false), room, ConnectTimeout);
    case ChannelEvent(ev) => EventFollows(t, open, room, ev);
    case Control(_) => FinishedFollows(t, open, room);
    case _ =>
  }

  lemma {:induction false} ForwardFollows(t: Task, open: Task, room: nat, input: Input)
    requires Follows(t, open, room) && t.phase.Forwarding?
    ensures Follows(ForwardTurn(t, input), ForwardTurn(open, input), room)
  {
    match input
    case MonitorEnd => FinishedFollows(t, open, room);
    case MonitorValue(v) => SentFollows(t, open, room, Value(v));
    case MonitorError => SentFollows(t, open, room, Error);
    case ChannelEvent(ev) => EventFollows(t, open, room, ev);
    case Control(_) => FinishedFollows(t.(handle := None), open.(handle := None), room);
    case _ =>
  }

  lemma {:induction false} TurnFollows(t: Task, open: Task, room: nat, input: Input)
    requires Follows(t, open, room)
    ensures Follows(Turn(t, input), Turn(open, input), room)
  {
    if t.phase.CutOff? {
      LogGrows(open, input);
    } else if t.phase.Waiting? {
      WaitFollows(t, open, room, input);
    } else if t.phase.Forwarding? {
      ForwardFollows(t, open, room, input);
    }
  }

  lemma {:induction false} RunFollows(probe: bool, deadline: bool, room: nat, inputs: seq<Input>)
    ensures Follows(Run(probe, deadline, Some(room), inputs), Run(probe, deadline, None, inputs), room)
    decreases |inputs|
  {
    if inputs == [] {
      var t := Task(Waiting, false, false, deadline, None, [], None);
      TransitionFollows(t.(room := Some(room)), t, room, probe);
    } else {
      RunFollows(probe, deadline, room, inputs[..|inputs| - 1]);
      TurnFollows(Run(probe, deadline, Some(room), inputs[..|inputs| - 1]), Run(probe, deadline, None, inputs[..|inputs| - 1]),
                  room, inputs[|inputs| - 1]);
    }
  }

  /** A hub that closes has, of what it would have been sent, exactly what it still took. */
  lemma {:induction false} ClosingHubGetsPrefix(probe: bool, deadline: bool, room: nat, inputs: seq<Input>)
    ensures var log, all := Run(probe, deadline, Some(room), inputs).log, Run(probe, deadline, None, inputs).log;
            log == if |all| <= room then all else all[..room]
  {
    RunFollows(probe, deadline, room, inputs);
  }
}
