/**
 The whole delivery path of one open epoch: posts into the stored value, one
 squashing ring a subscriber, frames on the wire, the decoder, the squashing
 monitor queue, and what the consumer has taken. The main theorem: however the
 steps interleave, seed and updates still add up to the stored value.
 */
module Delivery {
  import opened Common
  import opened PvDesc
  import opened PvValue
  import opened Updates
  import opened MonitorQueue
  import opened QueueGist
  import opened SharedPv

  datatype Client = Client(
    sub: Subscriber,            // the server's end; live: seeded, and its circuit not lost since
    wire: seq<Delta>,           // frames sent and not yet decoded
    decoder: DecoderState,
    limit: nat,
    queue: seq<Update>,         // the monitor's queue
    delivered: seq<Update>)     // what `take` has handed out

  datatype System = System(d: FieldDesc, stored: PvField, clients: map<nat, Client>)

  datatype ClientAction =
    | Send(body: PvField)       // the ring's head goes out; unmarked leaves of the body are arbitrary
    | Receive
    | Lifecycle(item: Update)
    | Take
    | Connect(ringLimit: nat)   // a new ring, and the seed goes out
    | Lose                      // the circuit is lost, with ring and wire

  datatype Action =
    | PostValue(value: PvField, marks: set<nat>)
    | Join(id: nat, limit: nat)
    | Act(id: nat, action: ClientAction)
    | Leave(id: nat)

  function NewSubscriber(ringLimit: nat): Subscriber {
    Subscriber(true, if ringLimit < 1 then 1 else ringLimit, [], true)
  }

  function Seed(stored: PvField): seq<Delta> {
    [Delta(EVERYTHING, stored)]
  }

  /** A monitor whose server has not answered yet. */
  function NewClient(limit: nat): Client {
    Client(NewSubscriber(1).(live := false), [], FRESH_DECODER, limit, [Disconnected], [])
  }

  ghost predicate ClientEnabled(d: FieldDesc, c: Client, a: ClientAction) {
    match a
    case Send(body) =>
      c.sub.ring != [] && Conforms(d, body) && AgreeOn(d, c.sub.ring[0].changed, body, c.sub.ring[0].value)
    case Receive => c.wire != []
    case Lifecycle(item) => !item.ValueUpdate?
    case Take => true
    case Connect(_) => !c.sub.live
    case Lose => true
  }

  function Offline(c: Client): Client {
    c.(sub := c.sub.(ring := [], live := false), wire := [])
  }

  /** One step of one client; a step that is not enabled changes nothing. */
  ghost function ClientNext(d: FieldDesc, stored: PvField, c: Client, a: ClientAction): Client {
    if !ClientEnabled(d, c, a) then c
    else
      match a
      case Send(body) =>
        AfterSend(c, Delta(c.sub.ring[0].changed, body))
      case Receive =>
        var (decoder', r) := Decoded(c.decoder, d, Frame(c.wire[0]));
        c.(wire := c.wire[1..], decoder := decoder',
           queue := if r.Some? then Pushed(c.queue, c.limit, d, r.value) else c.queue)
      case Lifecycle(item) => c.(queue := c.queue + [item])
      case Take => c.(queue := [], delivered := c.delivered + c.queue)
      case Connect(ringLimit) => c.(sub := NewSubscriber(ringLimit), wire := Seed(stored))
      case Lose => Offline(c)
  }

  /** A post reaches the client if its subscriber is one of those it is delivered to. */
  function AfterPost(c: Client, cur: PvField, marks: set<nat>): Client {
    var left := Deliver([c.sub], cur, marks);
    if left == [] then c else c.(sub := left[0])
  }

  lemma AfterPostIs(c: Client, cur: PvField, marks: set<nat>)
    ensures AfterPost(c, cur, marks) == if c.sub.live then c.(sub := PostTo(c.sub, cur, marks)) else c
  {
    assert [c.sub][..0] == [];
    assert Deliver([], cur, marks) == [];
  }

  ghost function Next(s: System, a: Action): System {
    match a
    case PostValue(value, marks) =>
      if !Conforms(s.d, value) || marks == {} then s
      else
        var cur := PostDelta(s.d, marks, 0, value, s.stored);
        System(s.d, cur, map id | id in s.clients :: AfterPost(s.clients[id], cur, marks))
    case Join(id, limit) =>
      if id in s.clients || limit < 1 then s else s.(clients := s.clients[id := NewClient(limit)])
    case Act(id, action) =>
      if id !in s.clients then s
      else s.(clients := s.clients[id := ClientNext(s.d, s.stored, s.clients[id], action)])
    case Leave(id) => s.(clients := s.clients - {id})
  }

  ghost function Run(s: System, actions: seq<Action>): System {
    if actions == [] then s
    else Next(Run(s, actions[..|actions| - 1]), actions[|actions| - 1])
  }

  // ---- The invariant ----

  /** Everything the decoder has made of the stream: delivered, then still queued. */
  function Received(c: Client): seq<Delta> {
    Deltas(c.delivered) + Deltas(c.queue)
  }

  /** The subscriber's whole stream: seed and updates, delivered, queued, on the wire, in the ring. */
  function Stream(c: Client): seq<Delta> {
    Received(c) + c.wire + c.sub.ring
  }

  ghost predicate PartsConform(d: FieldDesc, c: Client) {
    && DeltasConform(d, Deltas(c.delivered))
    && DeltasConform(d, Deltas(c.queue))
    && DeltasConform(d, c.wire)
    && DeltasConform(d, c.sub.ring)
  }

  ghost predicate DecoderInv(d: FieldDesc, c: Client, base: PvField) {
    match c.decoder.prior
    case None => Received(c) == [] && (c.sub.live ==> c.wire != [] && 0 in c.wire[0].changed)
    case Some(p) =>
      && c.decoder.desc == Some(d)
      && Conforms(d, p)
      && Received(c) != []
      && Received(c)[|Received(c)| - 1].value == p
      && Replay(d, base, Received(c)) == p
  }

  ghost predicate ClientInv(d: FieldDesc, stored: PvField, c: Client, base: PvField) {
    && PartsConform(d, c)
    && c.sub.marked
    && DecoderInv(d, c, base)
    && (c.sub.live ==>
          && (c.sub.ring != [] ==> c.sub.ring[|c.sub.ring| - 1].value == stored)
          && Replay(d, base, Stream(c)) == stored)
    && (!c.sub.live ==> c.sub.ring == [] && c.wire == [])
  }

  ghost predicate Inv(s: System, base: PvField) {
    && WellFormed(s.d)
    && Conforms(s.d, s.stored)
    && Conforms(s.d, base)
    && forall id | id in s.clients :: ClientInv(s.d, s.stored, s.clients[id], base)
  }

  lemma {:induction false} ReplayOfSeed(d: FieldDesc, base: PvField, before: seq<Delta>, stored: PvField)
    ensures Replay(d, base, before + Seed(stored)) == stored
  {
    ReplaySnoc(d, base, before, Delta(EVERYTHING, stored));
  }

  /** A stream split at its middle: replaying the tail from where the head ends. */
  lemma {:induction false} StreamSplit(d: FieldDesc, base: PvField, c: Client)
    ensures Replay(d, base, Stream(c)) == Replay(d, Replay(d, base, Received(c) + c.wire), c.sub.ring)
    ensures Replay(d, base, Stream(c)) == Replay(d, Replay(d, base, Received(c)), c.wire + c.sub.ring)
  {
    ReplayConcat(d, base, Received(c) + c.wire, c.sub.ring);
    assert Stream(c) == Received(c) + (c.wire + c.sub.ring);
    ReplayConcat(d, base, Received(c), c.wire + c.sub.ring);
  }

  lemma {:induction false} ReceivedConforms(d: FieldDesc, c: Client, base: PvField)
    requires PartsConform(d, c) && Conforms(d, base)
    ensures DeltasConform(d, Received(c)) && Conforms(d, Replay(d, base, Received(c)))
    ensures Conforms(d, Replay(d, base, Received(c) + c.wire))
  {
    ReplayConforms(d, base, Received(c));
    ReplayConforms(d, base, Received(c) + c.wire);
  }

  lemma {:induction false} PostKeepsClient(d: FieldDesc, stored: PvField, c: Client, base: PvField, value: PvField, marks: set<nat>)
    requires WellFormed(d) && Conforms(d, stored) && Conforms(d, base) && Conforms(d, value)
    requires ClientInv(d, stored, c, base)
    ensures var cur := PostDelta(d, marks, 0, value, stored);
            Conforms(d, cur) && ClientInv(d, cur, AfterPost(c, cur, marks), base)
  {
    var cur := PostDelta(d, marks, 0, value, stored);
    AfterPostIs(c, cur, marks);
    if c.sub.live {
      PostedRingKeeps(d, stored, c, base, value, marks);
    } else {
      PostDeltaIsFill(d, marks, 0, value, stored);
      FillConforms(d, marks, 0, value, stored);
    }
  }

  lemma {:induction false} PostedRingKeeps(d: FieldDesc, stored: PvField, c: Client, base: PvField, value: PvField, marks: set<nat>)
    requires WellFormed(d) && Conforms(d, stored) && Conforms(d, base) && Conforms(d, value)
    requires ClientInv(d, stored, c, base) && c.sub.live
    ensures var cur := PostDelta(d, marks, 0, value, stored);
            Conforms(d, cur) && ClientInv(d, cur, c.(sub := PostTo(c.sub, cur, marks)), base)
  {
    var cur := PostDelta(d, marks, 0, value, stored);
    var c' := c.(sub := PostTo(c.sub, cur, marks));
    StreamSplit(d, base, c);
    StreamSplit(d, base, c');
    ReceivedConforms(d, c, base);
    PostReachesRing(d, Replay(d, base, Received(c) + c.wire), c.sub.ring, c.sub.limit, stored, value, marks);
  }

  /** Two updates that do the same where they stand are interchangeable in a stream. */
  lemma {:induction false} SwapUpdate(d: FieldDesc, base: PvField, front: seq<Delta>, x: Delta, y: Delta, rest: seq<Delta>)
    requires Apply(d, x, Replay(d, base, front)) == Apply(d, y, Replay(d, base, front))
    ensures Replay(d, base, front + [x] + rest) == Replay(d, base, front + [y] + rest)
  {
    ReplayConcat(d, base, front + [x], rest);
    ReplayConcat(d, base, front + [y], rest);
    ReplaySnoc(d, base, front, x);
    ReplaySnoc(d, base, front, y);
  }

  lemma {:induction false} SendKeepsClient(d: FieldDesc, stored: PvField, c: Client, base: PvField, body: PvField)
    requires WellFormed(d) && Conforms(d, base) && ClientInv(d, stored, c, base)
    requires ClientEnabled(d, c, Send(body))
    ensures ClientInv(d, stored, ClientNext(d, stored, c, Send(body)), base)
  {
    var x := Delta(c.sub.ring[0].changed, body);
    SentKeepsReplay(d, c, base, x);
    SentKeepsParts(d, c, base, x);
  }

  lemma {:induction false} SentKeepsReplay(d: FieldDesc, c: Client, base: PvField, x: Delta)
    requires WellFormed(d) && Conforms(d, base) && PartsConform(d, c) && c.sub.ring != []
    requires x.changed == c.sub.ring[0].changed && Conforms(d, x.value)
    requires AgreeOn(d, x.changed, x.value, c.sub.ring[0].value)
    ensures Replay(d, base, Stream(AfterSend(c, x))) == Replay(d, base, Stream(c))
  {
    var front := Received(c) + c.wire;
    SentStream(c, x);
    ReceivedConforms(d, c, base);
    OverlayUsesCoveredOnly(d, x.changed, x.value, c.sub.ring[0].value, Replay(d, base, front));
    SwapUpdate(d, base, front, c.sub.ring[0], x, c.sub.ring[1..]);
  }

  lemma {:induction false} SentKeepsParts(d: FieldDesc, c: Client, base: PvField, x: Delta)
    requires PartsConform(d, c) && c.sub.ring != [] && Conforms(d, x.value) && DecoderInv(d, c, base)
    ensures PartsConform(d, AfterSend(c, x)) && DecoderInv(d, AfterSend(c, x), base)
  {
    assert Received(AfterSend(c, x)) == Received(c);
    assert c.wire != [] ==> (c.wire + [x])[0] == c.wire[0];
  }

  /** The client once `x` stands on the wire for its ring's head. */
  function AfterSend(c: Client, x: Delta): Client
    requires c.sub.ring != []
  {
    c.(sub := c.sub.(ring := c.sub.ring[1..]), wire := c.wire + [x])
  }

  lemma {:induction false} SentStream(c: Client, x: Delta)
    requires c.sub.ring != []
    ensures Stream(c) == Received(c) + c.wire + [c.sub.ring[0]] + c.sub.ring[1..]
    ensures Stream(AfterSend(c, x)) == Received(c) + c.wire + [x] + c.sub.ring[1..]
  {
    var front := Received(c) + c.wire;
    assert c.sub.ring == [c.sub.ring[0]] + c.sub.ring[1..];
    assert front + ([c.sub.ring[0]] + c.sub.ring[1..]) == front + [c.sub.ring[0]] + c.sub.ring[1..];
    assert Received(c) + (c.wire + [x]) == front + [x];
  }

  /** Decoding one frame gives the value the stream stands for at that point. */
  lemma {:induction false} DecodedIsReplay(d: FieldDesc, c: Client, base: PvField)
    requires WellFormed(d) && Conforms(d, base) && PartsConform(d, c) && DecoderInv(d, c, base) && c.sub.live && c.wire != []
    ensures var (decoder', r) := Decoded(c.decoder, d, Frame(c.wire[0]));
            && r.Some? && decoder' == DecoderState(Some(d), Some(r.value.value))
            && r.value.changed == c.wire[0].changed
            && Conforms(d, r.value.value)
            && r.value.value == Replay(d, base, Received(c) + [c.wire[0]])
            && r.value.value == Replay(d, base, Received(c) + [r.value])
            && (c.decoder.prior.Some? ==> Moves(d, c.decoder.prior.value, r.value))
  {
    var x := c.wire[0];
    var r := Decoded(c.decoder, d, Frame(x)).1.value;
    ReplaySnoc(d, base, Received(c), x);
    ReplaySnoc(d, base, Received(c), r);
    DecodedMoves(c.decoder, d, x);
  }

  /** A decoded update in the queue, squashed or not, replays as the frame did. */
  lemma {:induction false} QueuedIsReplay(d: FieldDesc, c: Client, base: PvField, r: Delta)
    requires WellFormed(d) && Conforms(d, base) && PartsConform(d, c) && DecoderInv(d, c, base)
    requires Conforms(d, r.value) && (c.decoder.prior.Some? ==> Moves(d, c.decoder.prior.value, r))
    ensures var queue' := Pushed(c.queue, c.limit, d, r);
            var got' := Deltas(c.delivered) + Deltas(queue');
            && DeltasConform(d, Deltas(queue'))
            && got' != [] && got'[|got'| - 1].value == r.value
            && Replay(d, base, got') == Replay(d, base, Received(c) + [r])
  {
    PushedDeltas(c.queue, c.limit, d, r);
    var got := Received(c);
    var got' := Deltas(c.delivered) + Deltas(Pushed(c.queue, c.limit, d, r));
    ReceivedConforms(d, c, base);
    if CountValues(c.queue) >= c.limit && TailIsValue(c.queue) {
      var q := Deltas(c.queue);
      assert got[|got| - 1] == q[|q| - 1];
      assert got' == SquashTail(got, r);
      ReplaySquash(d, base, got, r);
    } else {
      assert got' == got + [r];
    }
  }

  lemma {:induction false} ReceiveKeepsClient(d: FieldDesc, stored: PvField, c: Client, base: PvField)
    requires WellFormed(d) && Conforms(d, base) && ClientInv(d, stored, c, base) && c.wire != []
    ensures ClientInv(d, stored, ClientNext(d, stored, c, Receive), base)
  {
    var c' := ClientNext(d, stored, c, Receive);
    var x := c.wire[0];
    var r := Decoded(c.decoder, d, Frame(x)).1.value;
    DecodedIsReplay(d, c, base);
    QueuedIsReplay(d, c, base, r);
    assert c' == c.(wire := c.wire[1..], decoder := DecoderState(Some(d), Some(r.value)),
                    queue := Pushed(c.queue, c.limit, d, r));
    ReceivedStream(d, base, c);
    StreamSplit(d, base, c');
  }

  lemma {:induction false} ReceivedStream(d: FieldDesc, base: PvField, c: Client)
    requires c.wire != []
    ensures Replay(d, base, Stream(c))
            == Replay(d, Replay(d, base, Received(c) + [c.wire[0]]), c.wire[1..] + c.sub.ring)
  {
    var got, rest := Received(c), c.wire[1..] + c.sub.ring;
    assert c.wire + c.sub.ring == [c.wire[0]] + rest;
    assert Stream(c) == got + (c.wire + c.sub.ring);
    assert got + ([c.wire[0]] + rest) == (got + [c.wire[0]]) + rest;
    ReplayConcat(d, base, got + [c.wire[0]], rest);
  }

  lemma {:induction false} LifecycleKeepsClient(d: FieldDesc, stored: PvField, c: Client, base: PvField, item: Update)
    requires ClientInv(d, stored, c, base) && !item.ValueUpdate?
    ensures ClientInv(d, stored, c.(queue := c.queue + [item]), base)
  {
    assert (c.queue + [item])[..|c.queue|] == c.queue;
    assert Deltas(c.queue + [item]) == Deltas(c.queue);
    var c' := c.(queue := c.queue + [item]);
    assert Received(c') == Received(c) && Stream(c') == Stream(c);
  }

  lemma {:induction false} TakeKeepsClient(d: FieldDesc, stored: PvField, c: Client, base: PvField)
    requires ClientInv(d, stored, c, base)
    ensures ClientInv(d, stored, c.(queue := [], delivered := c.delivered + c.queue), base)
  {
    DeltasConcat(c.delivered, c.queue);
    var c' := c.(queue := [], delivered := c.delivered + c.queue);
    assert Received(c') == Received(c) && Stream(c') == Stream(c);
  }

  lemma {:induction false} ConnectKeepsClient(d: FieldDesc, stored: PvField, c: Client, base: PvField, ringLimit: nat)
    requires Conforms(d, stored) && ClientInv(d, stored, c, base) && !c.sub.live
    ensures ClientInv(d, stored, ClientNext(d, stored, c, Connect(ringLimit)), base)
  {
    var c' := ClientNext(d, stored, c, Connect(ringLimit));
    assert Received(c') == Received(c) && Stream(c') == Received(c) + Seed(stored);
    ReplayOfSeed(d, base, Received(c), stored);
  }

  lemma {:induction false} LoseKeepsClient(d: FieldDesc, stored: PvField, c: Client, base: PvField)
    requires ClientInv(d, stored, c, base)
    ensures ClientInv(d, stored, Offline(c), base)
  {
    assert Received(Offline(c)) == Received(c);
  }

  lemma {:induction false} ClientStepKeeps(d: FieldDesc, stored: PvField, c: Client, base: PvField, a: ClientAction)
    requires WellFormed(d) && Conforms(d, stored) && Conforms(d, base) && ClientInv(d, stored, c, base)
    ensures ClientInv(d, stored, ClientNext(d, stored, c, a), base)
  {
    if ClientEnabled(d, c, a) {
      match a
      case Send(body) => SendKeepsClient(d, stored, c, base, body);
      case Receive => ReceiveKeepsClient(d, stored, c, base);
      case Lifecycle(item) => LifecycleKeepsClient(d, stored, c, base, item);
      case Take => TakeKeepsClient(d, stored, c, base);
      case Connect(ringLimit) => ConnectKeepsClient(d, stored, c, base, ringLimit);
      case Lose => LoseKeepsClient(d, stored, c, base);
    }
  }

  lemma {:induction false} NewClientOk(d: FieldDesc, stored: PvField, limit: nat, base: PvField)
    ensures ClientInv(d, stored, NewClient(limit), base)
  {
    assert [Disconnected][..0] == [];
    assert Deltas([Disconnected]) == [];
  }

  lemma {:induction false} StepKeepsInv(s: System, a: Action, base: PvField)
    requires Inv(s, base)
    ensures Inv(Next(s, a), base)
  {
    match a
    case PostValue(value, marks) =>
      if Conforms(s.d, value) && marks != {} {
        PostDeltaIsFill(s.d, marks, 0, value, s.stored);
        FillConforms(s.d, marks, 0, value, s.stored);
        var cur := PostDelta(s.d, marks, 0, value, s.stored);
        forall id | id in s.clients ensures ClientInv(s.d, cur, Next(s, a).clients[id], base) {
          PostKeepsClient(s.d, s.stored, s.clients[id], base, value, marks);
        }
      }
    case Join(_, limit) => NewClientOk(s.d, s.stored, limit, base);
    case Act(id, action) =>
      if id in s.clients {
        ClientStepKeeps(s.d, s.stored, s.clients[id], base, action);
      }
    case Leave(_) =>
  }

  lemma {:induction false} RunKeepsInv(d: FieldDesc, v: PvField, actions: seq<Action>, base: PvField)
    requires WellFormed(d) && Conforms(d, v) && Conforms(d, base)
    ensures Inv(Run(System(d, v, map[]), actions), base)
    decreases |actions|
  {
    if actions != [] {
      RunKeepsInv(d, v, actions[..|actions| - 1], base);
      StepKeepsInv(Run(System(d, v, map[]), actions[..|actions| - 1]), actions[|actions| - 1], base);
    }
  }

  // ---- The theorems ----

  lemma {:induction false} RunKeepsDesc(s: System, actions: seq<Action>)
    ensures Run(s, actions).d == s.d
    decreases |actions|
  {
    if actions != [] {
      RunKeepsDesc(s, actions[..|actions| - 1]);
    }
  }

  /** What was posted, told from the actions: a value of another type or without marks is not. */
  function PostsOf(d: FieldDesc, actions: seq<Action>): seq<Delta> {
    if actions == [] then []
    else
      PostsOf(d, actions[..|actions| - 1])
      + match actions[|actions| - 1]
        case PostValue(value, marks) => if Conforms(d, value) && marks != {} then [Delta(marks, value)] else []
        case _ => []
  }

  /** What a subscriber is, told from the actions: none, one waiting for its server, or one that was
      seeded and has not lost its circuit since. */
  datatype Status = Absent | Waiting | Online

  function StatusOf(actions: seq<Action>, id: nat): Status {
    if actions == [] then Absent
    else
      var before := StatusOf(actions[..|actions| - 1], id);
      match actions[|actions| - 1]
      case PostValue(_, _) => before
      case Join(k, limit) => if k == id && before.Absent? && limit >= 1 then Waiting else before
      case Act(k, action) =>
        if k != id || before.Absent? then before
        else if action.Connect? then Online
        else if action.Lose? then Waiting
        else before
      case Leave(k) => if k == id then Absent else before
  }

  ghost predicate StatusFits(s: System, id: nat, status: Status) {
    && (id in s.clients <==> !status.Absent?)
    && (id in s.clients ==> (s.clients[id].sub.live <==> status.Online?))
  }

  lemma {:induction false} PostKeepsLive(c: Client, cur: PvField, marks: set<nat>)
    ensures AfterPost(c, cur, marks).sub.live == c.sub.live
  {
    AfterPostIs(c, cur, marks);
  }

  lemma {:induction false} StatusIs(s: System, actions: seq<Action>, id: nat)
    requires s.clients == map[]
    ensures StatusFits(Run(s, actions), id, StatusOf(actions, id))
    decreases |actions|
  {
    if actions != [] {
      var before, a := Run(s, actions[..|actions| - 1]), actions[|actions| - 1];
      StatusIs(s, actions[..|actions| - 1], id);
      if a.PostValue? && id in before.clients {
        PostKeepsLive(before.clients[id], PostDelta(before.d, a.marks, 0, a.value, before.stored), a.marks);
      }
    }
  }

  /** The stored value is the opened one overlaid with everything that was posted. */
  lemma {:induction false} StoredIsPosted(d: FieldDesc, v: PvField, actions: seq<Action>)
    requires WellFormed(d) && Conforms(d, v)
    ensures Run(System(d, v, map[]), actions).stored == Replay(d, v, PostsOf(d, actions))
    decreases |actions|
  {
    if actions != [] {
      var before, a := actions[..|actions| - 1], actions[|actions| - 1];
      var s := Run(System(d, v, map[]), before);
      StoredIsPosted(d, v, before);
      RunKeepsDesc(System(d, v, map[]), before);
      RunKeepsInv(d, v, before, v);
      if a.PostValue? && Conforms(d, a.value) && a.marks != {} {
        PostedStep(d, Delta(a.marks, a.value), a.value, s.stored);
        ReplaySnoc(d, v, PostsOf(d, before), Delta(a.marks, a.value));
      } else {
        assert PostsOf(d, actions) == PostsOf(d, before);
      }
    }
  }

  /** In every run, from any starting value, the seeds and updates of a subscriber that is online,
      wherever they are on the way, however they were squashed and however often its circuit was
      lost before, add up to the opened value overlaid with everything posted since. */
  lemma {:induction false} Convergence(d: FieldDesc, v: PvField, actions: seq<Action>, id: nat, base: PvField)
    requires WellFormed(d) && Conforms(d, v) && Conforms(d, base) && StatusOf(actions, id).Online?
    ensures var s := Run(System(d, v, map[]), actions);
            && id in s.clients
            && Replay(d, base, Stream(s.clients[id])) == s.stored == Replay(d, v, PostsOf(d, actions))
  {
    RunKeepsInv(d, v, actions, base);
    RunKeepsDesc(System(d, v, map[]), actions);
    StatusIs(System(d, v, map[]), actions, id);
    StoredIsPosted(d, v, actions);
  }

  predicate Drained(c: Client) {
    c.sub.live && c.sub.ring == [] && c.wire == [] && c.queue == []
  }

  /** A consumer that has caught up holds the stored value: its last value is it in full. */
  lemma {:induction false} CaughtUpHoldsStored(d: FieldDesc, v: PvField, actions: seq<Action>, id: nat)
    requires WellFormed(d) && Conforms(d, v)
    requires var s := Run(System(d, v, map[]), actions); id in s.clients && Drained(s.clients[id])
    ensures var s := Run(System(d, v, map[]), actions);
            var got := Deltas(s.clients[id].delivered);
            got != [] && got[|got| - 1].value == s.stored == Replay(d, v, PostsOf(d, actions))
  {
    var s := Run(System(d, v, map[]), actions);
    var c := s.clients[id];
    StoredIsPosted(d, v, actions);
    RunKeepsInv(d, v, actions, v);
    RunKeepsDesc(System(d, v, map[]), actions);
    assert Deltas(c.queue) == [];
    assert Received(c) == Deltas(c.delivered) && Stream(c) == Received(c);
  }

  lemma {:induction false} ReceiveKeepsLifecycle(d: FieldDesc, stored: PvField, c: Client)
    requires c.wire != []
    ensures var c' := ClientNext(d, stored, c, Receive);
            c'.delivered == c.delivered && LifecycleOf(c'.queue) == LifecycleOf(c.queue)
  {
    var r := Decoded(c.decoder, d, Frame(c.wire[0])).1;
    if r.Some? {
      LifecycleOfPushed(c.queue, c.limit, d, r.value);
    }
  }

  lemma {:induction false} ItemKeepsLifecycle(items: seq<Update>, item: Update)
    ensures LifecycleOf(items + [item]) == LifecycleOf(items) + if item.ValueUpdate? then [] else [item]
  {
    assert (items + [item])[..|items|] == items;
  }

  /** Lifecycle items reach the consumer all and in order: a step of a client adds the one it brings to
      what is queued and handed out, and takes none away. */
  lemma {:induction false} LifecycleIsKept(d: FieldDesc, stored: PvField, c: Client, a: ClientAction)
    ensures var c' := ClientNext(d, stored, c, a);
            LifecycleOf(c'.delivered + c'.queue)
            == LifecycleOf(c.delivered + c.queue) + if a.Lifecycle? && !a.item.ValueUpdate? then [a.item] else []
  {
    if ClientEnabled(d, c, a) {
      match a
      case Receive =>
        ReceiveKeepsLifecycle(d, stored, c);
        LifecycleConcat(c.delivered, c.queue);
        LifecycleConcat(c.delivered, ClientNext(d, stored, c, Receive).queue);
      case Lifecycle(item) =>
        assert c.delivered + (c.queue + [item]) == (c.delivered + c.queue) + [item];
        ItemKeepsLifecycle(c.delivered + c.queue, item);
      case Take => assert (c.delivered + c.queue) + [] == c.delivered + c.queue;
      case _ =>
    }
  }

  // ---- Catching up is always possible ----

  lemma {:induction false} RunConcat(s: System, a: seq<Action>, b: seq<Action>)
    ensures Run(s, a + b) == Run(Run(s, a), b)
    decreases |b|
  {
    if b == [] {
      assert a + b == a;
    } else {
      assert (a + b)[..|a + b| - 1] == a + b[..|b| - 1];
      RunConcat(s, a, b[..|b| - 1]);
    }
  }

  lemma {:induction false} RunCons(s: System, a: Action, rest: seq<Action>)
    ensures Run(s, [a] + rest) == Run(Next(s, a), rest)
  {
    RunConcat(s, [a], rest);
    assert [a][..0] == [];
  }

  /** The client's own steps: connecting if it is offline, sending, receiving, taking. */
  predicate OwnSteps(schedule: seq<Action>, id: nat) {
    forall i | 0 <= i < |schedule| ::
      && schedule[i].Act? && schedule[i].id == id
      && var a := schedule[i].action; a.Connect? || a.Send? || a.Receive? || a.Take?
  }

  /** What the client does next to catch up. */
  ghost function Forward(c: Client): ClientAction {
    if !c.sub.live then Connect(1)
    else if c.sub.ring != [] then Send(c.sub.ring[0].value)
    else if c.wire != [] then Receive
    else Take
  }

  /** How many such steps are left at most. */
  function Behind(c: Client): nat {
    3 * |c.sub.ring| + 2 * |c.wire| + (if c.queue == [] then 0 else 1) + if c.sub.live then 0 else 3
  }

  lemma {:induction false} ForwardIsCloser(d: FieldDesc, stored: PvField, c: Client, base: PvField)
    requires ClientInv(d, stored, c, base) && !Drained(c)
    ensures Behind(ClientNext(d, stored, c, Forward(c))) < Behind(c)
  {
    if c.sub.live && c.sub.ring != [] {
      assert Conforms(d, c.sub.ring[0].value);
    }
  }

  lemma {:induction false} ForwardStep(s: System, id: nat, base: PvField)
    requires Inv(s, base) && id in s.clients && !Drained(s.clients[id])
    ensures var s' := Next(s, Act(id, Forward(s.clients[id])));
            && Inv(s', base) && s'.d == s.d && s'.stored == s.stored && s'.clients.Keys == s.clients.Keys
            && Behind(s'.clients[id]) < Behind(s.clients[id])
  {
    ForwardIsCloser(s.d, s.stored, s.clients[id], base);
    StepKeepsInv(s, Act(id, Forward(s.clients[id])), base);
  }

  ghost predicate CaughtUp(s: System, s': System, id: nat) {
    && s'.d == s.d && s'.stored == s.stored && s'.clients.Keys == s.clients.Keys
    && id in s'.clients && Drained(s'.clients[id])
  }

  lemma {:induction false} OwnStepsCons(a: Action, rest: seq<Action>, id: nat)
    requires OwnSteps(rest, id) && OwnSteps([a], id)
    ensures OwnSteps([a] + rest, id)
  {
    assert [a][0] == a;
  }

  lemma {:induction false} ForwardIsOwn(c: Client, id: nat)
    ensures OwnSteps([Act(id, Forward(c))], id)
  {
  }

  lemma {:induction false} CatchUp(s: System, id: nat, base: PvField) returns (schedule: seq<Action>)
    requires Inv(s, base) && id in s.clients
    ensures OwnSteps(schedule, id) && CaughtUp(s, Run(s, schedule), id)
    decreases Behind(s.clients[id])
  {
    if Drained(s.clients[id]) {
      schedule := [];
    } else {
      var a := Act(id, Forward(s.clients[id]));
      ForwardStep(s, id, base);
      var s1 := Next(s, a);
      assert id in s1.clients;
      var rest := CatchUp(s1, id, base);
      schedule := [a] + rest;
      ForwardIsOwn(s.clients[id], id);
      OwnStepsCons(a, rest, id);
      RunCons(s, a, rest);
    }
  }

  /** From every reachable state a client, online or not, can catch up by its own steps, and what it
      was last handed is then the value that is stored. */
  lemma {:induction false} CatchingUpIsPossible(d: FieldDesc, v: PvField, actions: seq<Action>, id: nat)
    returns (schedule: seq<Action>)
    requires WellFormed(d) && Conforms(d, v) && !StatusOf(actions, id).Absent?
    ensures OwnSteps(schedule, id)
    ensures var s := Run(System(d, v, map[]), actions + schedule);
            && id in s.clients && Drained(s.clients[id])
            && var got := Deltas(s.clients[id].delivered);
               got != [] && got[|got| - 1].value == s.stored == Replay(d, v, PostsOf(d, actions))
  {
    RunKeepsInv(d, v, actions, v);
    StatusIs(System(d, v, map[]), actions, id);
    StoredIsPosted(d, v, actions);
    schedule := CatchUp(Run(System(d, v, map[]), actions), id, v);
    RunConcat(System(d, v, map[]), actions, schedule);
    CaughtUpHoldsStored(d, v, actions + schedule, id);
  }
}
