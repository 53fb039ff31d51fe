/**
 Channel attachments of `src/pva/server.rs`. A channel open looks its PV up, queues
 it under the channel's name and then attaches it; a close takes the oldest
 attachment of the name and then detaches it. Between these steps calls of other
 channels get in. A channel is closed only after its own open has returned.
 */
module Attachments {

  type Pv = nat

  datatype Edge = FirstConnect | LastDisconnect

  /** `own` is the PV a channel attached, if its name had one. */
  datatype Phase =
    | Looked(pv: Pv)
    | Queued(pv: Pv)                    // in the name's queue, not yet attached
    | Opened(own: seq<Pv>)
    | Leaving(own: seq<Pv>, pv: Pv)     // its close took `pv`, not yet detached
    | Closed

  datatype Channel = Channel(name: string, phase: Phase)

  /** `inner` is the library's own table; `bound` remembers the PV a name was last given. */
  datatype Source = Source(
    entries: map<string, Pv>,
    inner: set<string>,
    bound: map<string, Pv>,
    attached: map<string, seq<Pv>>,
    channels: seq<Channel>,
    counts: map<Pv, int>,
    edges: map<Pv, seq<Edge>>)

  datatype Action =
    | Add(name: string, pv: Pv)
    | Remove(name: string)
    | RemoveInner(name: string)
    | Lookup(name: string)    // a new channel
    | Enqueue(ch: nat)
    | Attach(ch: nat)
    | Pop(ch: nat)
    | Detach(ch: nat)

  const EMPTY := Source(map[], {}, map[], map[], [], map[], map[])

  function Count(s: Source, pv: Pv): int {
    if pv in s.counts then s.counts[pv] else 0
  }

  function Edges(s: Source, pv: Pv): seq<Edge> {
    if pv in s.edges then s.edges[pv] else []
  }

  function Queue(attached: map<string, seq<Pv>>, name: string): seq<Pv> {
    if name in attached then attached[name] else []
  }

  /** The table with `q` as the queue of `name`; an empty queue is not kept. */
  function WithQueue(attached: map<string, seq<Pv>>, name: string, q: seq<Pv>): map<string, seq<Pv>> {
    if q == [] then attached - {name} else attached[name := q]
  }

  /** Move a PV's count, with the edge event if it passes between 0 and 1. */
  function Move(s: Source, pv: Pv, up: bool): Source {
    var n := Count(s, pv);
    var n' := if up then n + 1 else n - 1;
    var edge := if up && n == 0 then [FirstConnect] else if !up && n == 1 then [LastDisconnect] else [];
    s.(counts := s.counts[pv := n'], edges := s.edges[pv := Edges(s, pv) + edge])
  }

  function At(s: Source, ch: nat): Phase {
    if ch < |s.channels| then s.channels[ch].phase else Closed
  }

  function Put(s: Source, ch: nat, phase: Phase): Source
    requires ch < |s.channels|
  {
    s.(channels := s.channels[ch := s.channels[ch].(phase := phase)])
  }

  predicate AddTakes(s: Source, name: string) {
    name !in s.entries && name !in s.inner
  }

  function Next(s: Source, a: Action): Source {
    match a
    case Add(name, pv) =>
      if !AddTakes(s, name) then s
      else s.(entries := s.entries[name := pv], inner := s.inner + {name}, bound := s.bound[name := pv])
    case Remove(name) => s.(entries := s.entries - {name})
    case RemoveInner(name) => s.(inner := s.inner - {name})
    case Lookup(name) =>
      s.(channels := s.channels + [Channel(name, if name in s.entries then Looked(s.entries[name]) else Opened([]))])
    case Enqueue(ch) =>
      if !At(s, ch).Looked? then s
      else
        var pv, name := At(s, ch).pv, s.channels[ch].name;
        Put(s, ch, Queued(pv)).(attached := WithQueue(s.attached, name, Queue(s.attached, name) + [pv]))
    case Attach(ch) =>
      if !At(s, ch).Queued? then s else Move(Put(s, ch, Opened([At(s, ch).pv])), At(s, ch).pv, true)
    case Pop(ch) =>
      if !At(s, ch).Opened? then s
      else
        var name := s.channels[ch].name;
        var q := Queue(s.attached, name);
        if q == [] then Put(s, ch, Closed)
        else Put(s, ch, Leaving(At(s, ch).own, q[0])).(attached := WithQueue(s.attached, name, q[1..]))
    case Detach(ch) =>
      if !At(s, ch).Leaving? then s else Move(Put(s, ch, Closed), At(s, ch).pv, false)
  }

  function Run(actions: seq<Action>): Source {
    if actions == [] then EMPTY else Next(Run(actions[..|actions| - 1]), actions[|actions| - 1])
  }

  // ---- Counting channels ----

  datatype Kind =
    | WaitsFor(pv: Pv)       // queued, its attach to come
    | Leaves(pv: Pv)         // took `pv`, its detach to come
    | Holds(pv: Pv)          // attached `pv` and has not detached
    | InQueue(name: string)  // put one attachment of the name there and has not taken one

  predicate Is(c: Channel, kind: Kind) {
    match kind
    case WaitsFor(pv) => c.phase == Queued(pv)
    case Leaves(pv) => c.phase.Leaving? && c.phase.pv == pv
    case Holds(pv) => (c.phase.Opened? || c.phase.Leaving?) && c.phase.own == [pv]
    case InQueue(name) => c.name == name && (c.phase.Queued? || (c.phase.Opened? && c.phase.own != []))
  }

  function One(c: Channel, kind: Kind): nat {
    if Is(c, kind) then 1 else 0
  }

  function Tally(cs: seq<Channel>, kind: Kind): nat {
    if cs == [] then 0 else Tally(cs[..|cs| - 1], kind) + One(cs[|cs| - 1], kind)
  }

  lemma {:induction false} TallyUpdate(cs: seq<Channel>, ch: nat, c: Channel, kind: Kind)
    requires ch < |cs|
    ensures Tally(cs[ch := c], kind) + One(cs[ch], kind) == Tally(cs, kind) + One(c, kind)
    decreases |cs|
  {
    var n := |cs| - 1;
    if ch == n {
      assert cs[ch := c][..n] == cs[..n];
    } else {
      assert cs[ch := c][..n] == cs[..n][ch := c];
      TallyUpdate(cs[..n], ch, c, kind);
    }
  }

  lemma {:induction false} TallySnoc(cs: seq<Channel>, c: Channel, kind: Kind)
    ensures Tally(cs + [c], kind) == Tally(cs, kind) + One(c, kind)
  {
    assert (cs + [c])[..|cs|] == cs;
  }

  lemma {:induction false} TallyHasIt(cs: seq<Channel>, ch: nat, kind: Kind)
    requires ch < |cs| && Is(cs[ch], kind)
    ensures Tally(cs, kind) >= 1
    decreases |cs|
  {
    if ch < |cs| - 1 {
      TallyHasIt(cs[..|cs| - 1], ch, kind);
    }
  }

  // ---- All attachments of a table ----

  ghost function AllAttached(attached: map<string, seq<Pv>>): multiset<Pv>
    decreases |attached|
  {
    if attached == map[] then multiset{}
    else
      var name :| name in attached;
      assert |attached - {name}| < |attached| by {
        assert attached == (attached - {name})[name := attached[name]];
      }
      multiset(attached[name]) + AllAttached(attached - {name})
  }

  /** Any name may be split off. */
  lemma {:induction false} SplitOff(attached: map<string, seq<Pv>>, name: string)
    requires name in attached
    ensures AllAttached(attached) == multiset(attached[name]) + AllAttached(attached - {name})
    decreases |attached|
  {
    var k :| k in attached && AllAttached(attached) == multiset(attached[k]) + AllAttached(attached - {k});
    if k != name {
      assert attached == (attached - {k})[k := attached[k]];
      assert attached == (attached - {name})[name := attached[name]];
      SplitOff(attached - {k}, name);
      SplitOff(attached - {name}, k);
      assert attached - {k} - {name} == attached - {name} - {k};
    }
  }

  lemma {:induction false} AttachedWithQueue(attached: map<string, seq<Pv>>, name: string, q: seq<Pv>)
    ensures AllAttached(WithQueue(attached, name, q)) + multiset(Queue(attached, name))
            == AllAttached(attached) + multiset(q)
  {
    if name in attached {
      SplitOff(attached, name);
    } else {
      assert attached - {name} == attached;
    }
    if q != [] {
      SplitOff(attached[name := q], name);
      assert attached[name := q] - {name} == attached - {name};
    }
  }

  // ---- What every run keeps ----

  predicate Alternates(edges: seq<Edge>) {
    forall i | 0 <= i < |edges| :: edges[i] == if i % 2 == 0 then FirstConnect else LastDisconnect
  }

  /** The edges alternate, and the last one tells whether anyone is connected. */
  predicate EdgesFit(edges: seq<Edge>, count: int) {
    Alternates(edges) && (|edges| % 2 == 1 <==> count >= 1)
  }

  ghost predicate Balanced(s: Source, pv: Pv) {
    Count(s, pv) + Tally(s.channels, WaitsFor(pv)) == AllAttached(s.attached)[pv] + Tally(s.channels, Leaves(pv))
  }

  ghost predicate PvOk(s: Source, pv: Pv) {
    Balanced(s, pv) && EdgesFit(Edges(s, pv), Count(s, pv))
  }

  ghost predicate NoEmptyQueue(s: Source) {
    forall name | name in s.attached :: s.attached[name] != []
  }

  /** Moving a count by one keeps its edges alternating. */
  lemma {:induction false} MoveFits(s: Source, pv: Pv, up: bool)
    requires EdgesFit(Edges(s, pv), Count(s, pv))
    ensures var s' := Move(s, pv, up);
            && Count(s', pv) == Count(s, pv) + (if up then 1 else -1)
            && EdgesFit(Edges(s', pv), Count(s', pv))
            && forall p | p != pv :: Count(s', p) == Count(s, p) && Edges(s', p) == Edges(s, p)
  {
  }

  /** A channel moves on, and with it at most one count. */
  lemma {:induction false} ShiftKeeps(s: Source, ch: nat, phase: Phase, moved: Pv, up: bool, pv: Pv)
    requires ch < |s.channels| && PvOk(s, pv)
    requires if up then s.channels[ch].phase == Queued(moved) && phase == Opened([moved])
             else s.channels[ch].phase.Leaving? && s.channels[ch].phase.pv == moved && phase == Closed
    ensures PvOk(Move(Put(s, ch, phase), moved, up), pv)
  {
    var c := s.channels[ch].(phase := phase);
    TallyUpdate(s.channels, ch, c, WaitsFor(pv));
    TallyUpdate(s.channels, ch, c, Leaves(pv));
    if pv == moved {
      MoveFits(Put(s, ch, phase), pv, up);
    }
  }

  lemma {:induction false} AttachedPv(attached: map<string, seq<Pv>>, name: string, q: seq<Pv>, pv: Pv)
    ensures AllAttached(WithQueue(attached, name, q))[pv] + multiset(Queue(attached, name))[pv]
         == AllAttached(attached)[pv] + multiset(q)[pv]
  {
    AttachedWithQueue(attached, name, q);
    assert (AllAttached(WithQueue(attached, name, q)) + multiset(Queue(attached, name)))[pv]
        == (AllAttached(attached) + multiset(q))[pv];
  }

  /** Counts and edges alone; a queue takes in what a channel brings, or gives what it takes. */
  lemma {:induction false} BalanceMoves(s: Source, s': Source, name: string, q: seq<Pv>, pv: Pv)
    requires PvOk(s, pv) && s'.counts == s.counts && s'.edges == s.edges && s'.attached == WithQueue(s.attached, name, q)
    requires Tally(s'.channels, WaitsFor(pv)) + Tally(s.channels, Leaves(pv)) + multiset(Queue(s.attached, name))[pv]
          == Tally(s.channels, WaitsFor(pv)) + Tally(s'.channels, Leaves(pv)) + multiset(q)[pv]
    ensures PvOk(s', pv)
  {
    AttachedPv(s.attached, name, q, pv);
  }

  lemma {:induction false} EnqueueKeeps(s: Source, ch: nat, pv: Pv)
    requires At(s, ch).Looked? && PvOk(s, pv)
    ensures PvOk(Next(s, Enqueue(ch)), pv)
  {
    var c := s.channels[ch].(phase := Queued(At(s, ch).pv));
    TallyUpdate(s.channels, ch, c, WaitsFor(pv));
    TallyUpdate(s.channels, ch, c, Leaves(pv));
    var q := Queue(s.attached, c.name);
    assert multiset(q + [At(s, ch).pv]) == multiset(q) + multiset{At(s, ch).pv};
    BalanceMoves(s, Next(s, Enqueue(ch)), c.name, q + [At(s, ch).pv], pv);
  }

  lemma {:induction false} PopKeeps(s: Source, ch: nat, pv: Pv)
    requires At(s, ch).Opened? && Queue(s.attached, s.channels[ch].name) != [] && PvOk(s, pv)
    ensures PvOk(Next(s, Pop(ch)), pv)
  {
    var q := Queue(s.attached, s.channels[ch].name);
    var c := s.channels[ch].(phase := Leaving(At(s, ch).own, q[0]));
    TallyUpdate(s.channels, ch, c, WaitsFor(pv));
    TallyUpdate(s.channels, ch, c, Leaves(pv));
    assert q == [q[0]] + q[1..];
    assert multiset(q) == multiset{q[0]} + multiset(q[1..]);
    BalanceMoves(s, Next(s, Pop(ch)), c.name, q[1..], pv);
  }

  lemma {:induction false} IdleKeeps(s: Source, ch: nat, pv: Pv)
    requires ch < |s.channels| && s.channels[ch].phase.Opened? && PvOk(s, pv)
    ensures PvOk(Put(s, ch, Closed), pv)
  {
    var c := s.channels[ch].(phase := Closed);
    TallyUpdate(s.channels, ch, c, WaitsFor(pv));
    TallyUpdate(s.channels, ch, c, Leaves(pv));
  }

  lemma {:induction false} NewChannelKeeps(s: Source, name: string, pv: Pv)
    requires PvOk(s, pv)
    ensures PvOk(Next(s, Lookup(name)), pv)
  {
    var c := Channel(name, if name in s.entries then Looked(s.entries[name]) else Opened([]));
    TallySnoc(s.channels, c, WaitsFor(pv));
    TallySnoc(s.channels, c, Leaves(pv));
  }

  lemma {:induction false} StepKeepsPv(s: Source, a: Action, pv: Pv)
    requires PvOk(s, pv)
    ensures PvOk(Next(s, a), pv)
  {
    match a
    case Add(_, _) =>
    case Remove(_) =>
    case RemoveInner(_) =>
    case Lookup(name) => NewChannelKeeps(s, name, pv);
    case Enqueue(ch) =>
      if At(s, ch).Looked? {
        EnqueueKeeps(s, ch, pv);
      }
    case Attach(ch) =>
      if At(s, ch).Queued? {
        ShiftKeeps(s, ch, Opened([At(s, ch).pv]), At(s, ch).pv, true, pv);
      }
    case Pop(ch) =>
      if At(s, ch).Opened? {
        if Queue(s.attached, s.channels[ch].name) == [] {
          IdleKeeps(s, ch, pv);
        } else {
          PopKeeps(s, ch, pv);
        }
      }
    case Detach(ch) =>
      if At(s, ch).Leaving? {
        ShiftKeeps(s, ch, Closed, At(s, ch).pv, false, pv);
      }
  }

  lemma {:induction false} RunKeepsPv(actions: seq<Action>, pv: Pv)
    ensures PvOk(Run(actions), pv)
    decreases |actions|
  {
    if actions != [] {
      RunKeepsPv(actions[..|actions| - 1], pv);
      StepKeepsPv(Run(actions[..|actions| - 1]), actions[|actions| - 1], pv);
    }
  }

  lemma StepKeepsNoEmpty(s: Source, a: Action)
    requires NoEmptyQueue(s)
    ensures NoEmptyQueue(Next(s, a))
  {
  }

  lemma {:induction false} RunKeepsNoEmpty(actions: seq<Action>)
    ensures NoEmptyQueue(Run(actions))
    decreases |actions|
  {
    if actions != [] {
      RunKeepsNoEmpty(actions[..|actions| - 1]);
      StepKeepsNoEmpty(Run(actions[..|actions| - 1]), actions[|actions| - 1]);
    }
  }

  /** In every interleaving of opens, closes, adds and removes: a PV's count is its number of
      attachments, up to the calls still under way; its edges alternate, first-connect first,
      and the last one tells whether anyone is connected; no empty queue is kept. */
  lemma {:induction false} AttachmentsConserved(actions: seq<Action>, pv: Pv)
    ensures var s := Run(actions);
            && Count(s, pv) + Tally(s.channels, WaitsFor(pv)) == AllAttached(s.attached)[pv] + Tally(s.channels, Leaves(pv))
            && Alternates(Edges(s, pv))
            && (|Edges(s, pv)| % 2 == 1 <==> Count(s, pv) >= 1)
            && forall name | name in s.attached :: s.attached[name] != []
  {
    RunKeepsPv(actions, pv);
    RunKeepsNoEmpty(actions);
  }

  /** Whenever no call is between its two steps, the count is exactly the attachments. */
  lemma {:induction false} QuietCountIsExact(actions: seq<Action>, pv: Pv)
    requires forall i | 0 <= i < |Run(actions).channels| ::
               !Run(actions).channels[i].phase.Queued? && !Run(actions).channels[i].phase.Leaving?
    ensures var s := Run(actions); Count(s, pv) == AllAttached(s.attached)[pv] >= 0
  {
    AttachmentsConserved(actions, pv);
    NoneTallied(Run(actions).channels, WaitsFor(pv));
    NoneTallied(Run(actions).channels, Leaves(pv));
  }

  lemma {:induction false} NoneTallied(cs: seq<Channel>, kind: Kind)
    requires forall i | 0 <= i < |cs| :: !Is(cs[i], kind)
    ensures Tally(cs, kind) == 0
    decreases |cs|
  {
    if cs != [] {
      NoneTallied(cs[..|cs| - 1], kind);
    }
  }

  // ---- When a count cannot go below zero ----

  /** The step is an open whose name has no PV. */
  predicate Misses(s: Source, a: Action) {
    a.Lookup? && a.name !in s.entries
  }

  /** `pv` is attached under the name, or an open of the name is about to attach it. */
  predicate InUse(s: Source, name: string, pv: Pv) {
    || pv in Queue(s.attached, name)
    || exists i | 0 <= i < |s.channels| ::
         s.channels[i].name == name && (s.channels[i].phase == Looked(pv) || s.channels[i].phase == Queued(pv))
  }

  /** The step gives a name to a PV while another is in use under it. */
  ghost predicate Rebinds(s: Source, a: Action) {
    a.Add? && AddTakes(s, a.name) && exists pv :: pv != a.pv && InUse(s, a.name, pv)
  }

  predicate NoMiss(actions: seq<Action>) {
    actions != [] ==>
      NoMiss(actions[..|actions| - 1]) && !Misses(Run(actions[..|actions| - 1]), actions[|actions| - 1])
  }

  ghost predicate NoRebind(actions: seq<Action>) {
    actions != [] ==>
      NoRebind(actions[..|actions| - 1]) && !Rebinds(Run(actions[..|actions| - 1]), actions[|actions| - 1])
  }

  /** A channel that has a PV has the one its name is bound to, and takes no other. */
  predicate ChannelOk(s: Source, c: Channel) {
    match c.phase
    case Looked(pv) => c.name in s.bound && s.bound[c.name] == pv
    case Queued(pv) => c.name in s.bound && s.bound[c.name] == pv
    case Opened(own) => c.name in s.bound && own == [s.bound[c.name]]
    case Leaving(own, pv) => own == [pv]
    case Closed => true
  }

  ghost predicate NameOk(s: Source, name: string) {
    && |Queue(s.attached, name)| == Tally(s.channels, InQueue(name))
    && (name in s.entries ==> name in s.bound && s.bound[name] == s.entries[name])
    && (Queue(s.attached, name) != [] ==> name in s.bound && AllAre(Queue(s.attached, name), s.bound[name]))
  }

  predicate AllAre(q: seq<Pv>, pv: Pv) {
    forall k | 0 <= k < |q| :: q[k] == pv
  }

  ghost predicate Orderly(s: Source) {
    && (forall i | 0 <= i < |s.channels| :: ChannelOk(s, s.channels[i]))
    && (forall name :: NameOk(s, name))
    && (forall pv :: Count(s, pv) == Tally(s.channels, Holds(pv)))
  }

  /** A bound name that is in use stays bound to what it is. */
  lemma {:induction false} AddKeepsOrder(s: Source, name: string, pv: Pv)
    requires Orderly(s) && !Rebinds(s, Add(name, pv))
    ensures Orderly(Next(s, Add(name, pv)))
  {
    var s' := Next(s, Add(name, pv));
    if AddTakes(s, name) {
      assert forall p | InUse(s, name, p) :: p == pv;
      forall i | 0 <= i < |s'.channels| ensures ChannelOk(s', s'.channels[i]) {
        ChannelStaysOk(s, name, pv, i);
      }
      forall n ensures NameOk(s', n) {
        assert NameOk(s, n);
        if n == name {
          forall k | 0 <= k < |Queue(s.attached, name)| ensures Queue(s.attached, name)[k] == pv {
            assert InUse(s, name, Queue(s.attached, name)[k]);
          }
        }
      }
    }
  }

  lemma {:induction false} ChannelStaysOk(s: Source, name: string, pv: Pv, i: nat)
    requires Orderly(s) && i < |s.channels| && AddTakes(s, name) && forall p | InUse(s, name, p) :: p == pv
    ensures ChannelOk(Next(s, Add(name, pv)), s.channels[i])
  {
    var c := s.channels[i];
    assert ChannelOk(s, c);
    if c.name == name {
      if c.phase.Looked? || c.phase.Queued? {
        assert InUse(s, name, c.phase.pv);
      } else if c.phase.Opened? {
        TallyHasIt(s.channels, i, InQueue(name));
        assert NameOk(s, name);
        assert InUse(s, name, Queue(s.attached, name)[0]);
      }
    }
  }

  lemma {:induction false} LookupKeepsOrder(s: Source, name: string)
    requires Orderly(s) && name in s.entries
    ensures Orderly(Next(s, Lookup(name)))
  {
    var s' := Next(s, Lookup(name));
    var c := Channel(name, Looked(s.entries[name]));
    assert NameOk(s, name);
    forall i | 0 <= i < |s'.channels| ensures ChannelOk(s', s'.channels[i]) {
      assert i < |s.channels| ==> ChannelOk(s, s.channels[i]);
    }
    forall n ensures NameOk(s', n) {
      assert NameOk(s, n);
      TallySnoc(s.channels, c, InQueue(n));
    }
    forall pv ensures Count(s', pv) == Tally(s'.channels, Holds(pv)) {
      TallySnoc(s.channels, c, Holds(pv));
    }
  }

  /** A channel moves on; its name's queue follows. */
  lemma {:induction false} QueueStepKeepsOrder(s: Source, ch: nat, phase: Phase, q: seq<Pv>)
    requires Orderly(s) && ch < |s.channels|
    requires var c, q0 := s.channels[ch], Queue(s.attached, s.channels[ch].name);
             || (c.phase.Looked? && phase == Queued(c.phase.pv) && q == q0 + [c.phase.pv])
             || (c.phase.Opened? && q0 != [] && phase == Leaving(c.phase.own, q0[0]) && q == q0[1..])
    ensures Orderly(Put(s, ch, phase).(attached := WithQueue(s.attached, s.channels[ch].name, q)))
  {
    var name := s.channels[ch].name;
    var s' := Put(s, ch, phase).(attached := WithQueue(s.attached, name, q));
    var c := s.channels[ch].(phase := phase);
    assert ChannelOk(s, s.channels[ch]) && NameOk(s, name);
    assert Queue(s'.attached, name) == q;
    forall i | 0 <= i < |s'.channels| ensures ChannelOk(s', s'.channels[i]) {
      assert ChannelOk(s, s.channels[i]);
    }
    forall n ensures NameOk(s', n) {
      assert NameOk(s, n);
      TallyUpdate(s.channels, ch, c, InQueue(n));
      assert n != name ==> Queue(s'.attached, n) == Queue(s.attached, n);
    }
    forall pv ensures Count(s', pv) == Tally(s'.channels, Holds(pv)) {
      TallyUpdate(s.channels, ch, c, Holds(pv));
    }
  }

  lemma {:induction false} CountStepKeepsOrder(s: Source, ch: nat, phase: Phase, moved: Pv, up: bool)
    requires Orderly(s) && ch < |s.channels|
    requires if up then s.channels[ch].phase == Queued(moved) && phase == Opened([moved])
             else s.channels[ch].phase.Leaving? && s.channels[ch].phase.pv == moved && phase == Closed
    ensures Orderly(Move(Put(s, ch, phase), moved, up))
  {
    var s' := Move(Put(s, ch, phase), moved, up);
    var c := s.channels[ch].(phase := phase);
    assert ChannelOk(s, s.channels[ch]);
    forall i | 0 <= i < |s'.channels| ensures ChannelOk(s', s'.channels[i]) {
      assert ChannelOk(s, s.channels[i]);
    }
    forall n ensures NameOk(s', n) {
      assert NameOk(s, n);
      TallyUpdate(s.channels, ch, c, InQueue(n));
    }
    forall pv ensures Count(s', pv) == Tally(s'.channels, Holds(pv)) {
      TallyUpdate(s.channels, ch, c, Holds(pv));
    }
  }

  /** The close of an attached channel finds its name's queue non-empty. */
  lemma {:induction false} PopFinds(s: Source, ch: nat)
    requires Orderly(s) && At(s, ch).Opened?
    ensures Queue(s.attached, s.channels[ch].name) != []
  {
    assert ChannelOk(s, s.channels[ch]) && NameOk(s, s.channels[ch].name);
    TallyHasIt(s.channels, ch, InQueue(s.channels[ch].name));
  }

  lemma {:induction false} StepKeepsOrder(s: Source, a: Action)
    requires Orderly(s) && !Misses(s, a) && !Rebinds(s, a)
    ensures Orderly(Next(s, a))
  {
    match a
    case Add(name, pv) => AddKeepsOrder(s, name, pv);
    case Remove(name) => RemoveKeepsOrder(s, name);
    case RemoveInner(name) => RemoveInnerKeepsOrder(s, name);
    case Lookup(name) => LookupKeepsOrder(s, name);
    case Enqueue(ch) =>
      if At(s, ch).Looked? {
        QueueStepKeepsOrder(s, ch, Queued(At(s, ch).pv), Queue(s.attached, s.channels[ch].name) + [At(s, ch).pv]);
      }
    case Attach(ch) =>
      if At(s, ch).Queued? {
        CountStepKeepsOrder(s, ch, Opened([At(s, ch).pv]), At(s, ch).pv, true);
      }
    case Pop(ch) =>
      if At(s, ch).Opened? {
        PopFinds(s, ch);
        var q := Queue(s.attached, s.channels[ch].name);
        QueueStepKeepsOrder(s, ch, Leaving(At(s, ch).own, q[0]), q[1..]);
      }
    case Detach(ch) =>
      if At(s, ch).Leaving? {
        CountStepKeepsOrder(s, ch, Closed, At(s, ch).pv, false);
      }
  }

  lemma {:induction false} RemoveKeepsOrder(s: Source, name: string)
    requires Orderly(s)
    ensures Orderly(Next(s, Remove(name)))
  {
    var s' := Next(s, Remove(name));
    forall i | 0 <= i < |s'.channels| ensures ChannelOk(s', s'.channels[i]) {
      assert ChannelOk(s, s.channels[i]);
    }
    forall n ensures NameOk(s', n) {
      assert NameOk(s, n);
    }
    forall pv ensures Count(s', pv) == Tally(s'.channels, Holds(pv)) {
      assert Count(s, pv) == Tally(s.channels, Holds(pv));
    }
  }

  lemma {:induction false} RemoveInnerKeepsOrder(s: Source, name: string)
    requires Orderly(s)
    ensures Orderly(Next(s, RemoveInner(name)))
  {
    var s' := Next(s, RemoveInner(name));
    forall i | 0 <= i < |s'.channels| ensures ChannelOk(s', s'.channels[i]) {
      assert ChannelOk(s, s.channels[i]);
    }
    forall n ensures NameOk(s', n) {
      assert NameOk(s, n);
    }
    forall pv ensures Count(s', pv) == Tally(s'.channels, Holds(pv)) {
      assert Count(s, pv) == Tally(s.channels, Holds(pv));
    }
  }

  lemma {:induction false} RunIsOrderly(actions: seq<Action>)
    requires NoMiss(actions) && NoRebind(actions)
    ensures Orderly(Run(actions))
    decreases |actions|
  {
    if actions != [] {
      RunIsOrderly(actions[..|actions| - 1]);
      StepKeepsOrder(Run(actions[..|actions| - 1]), actions[|actions| - 1]);
    }
  }

  /** An open channel holds the PV last added under its name; a closing one detaches what it holds. */
  predicate HoldsItsPv(s: Source, c: Channel) {
    && (c.phase.Opened? ==> c.name in s.bound && c.phase.own == [s.bound[c.name]])
    && (c.phase.Leaving? ==> c.phase.own == [c.phase.pv])
  }

  /** If every open finds a PV and no name goes to another PV while one is in use under it, then in
      every interleaving each PV's count is exactly the number of channels that attached it and have
      not detached, so it is never negative; and a close detaches its own channel's PV. */
  lemma {:induction false} OrderlyCounts(actions: seq<Action>, pv: Pv)
    requires NoMiss(actions) && NoRebind(actions)
    ensures var s := Run(actions);
            && Count(s, pv) == Tally(s.channels, Holds(pv)) >= 0
            && forall i | 0 <= i < |s.channels| :: HoldsItsPv(s, s.channels[i])
  {
    RunIsOrderly(actions);
    var s := Run(actions);
    forall i | 0 <= i < |s.channels| ensures HoldsItsPv(s, s.channels[i]) {
      assert ChannelOk(s, s.channels[i]);
    }
  }

  lemma RunSnoc(actions: seq<Action>, a: Action)
    ensures Run(actions + [a]) == Next(Run(actions), a)
    ensures NoMiss(actions + [a]) <==> NoMiss(actions) && !Misses(Run(actions), a)
    ensures NoRebind(actions + [a]) <==> NoRebind(actions) && !Rebinds(Run(actions), a)
  {
    assert (actions + [a])[..|actions|] == actions;
  }

  lemma FirstInQueue(name: string, pv: Pv)
    ensures WithQueue(map[], name, Queue(map[], name) + [pv]) == map[name := [pv]]
  {
    assert Queue(map[], name) + [pv] == [pv];
  }

  /** A name with one PV, nothing attached. */
  function Bound(name: string, pv: Pv, channels: seq<Channel>): Source {
    Source(map[name := pv], {name}, map[name := pv], map[], channels, map[], map[])
  }

  /** The same with `q` in the name's queue. */
  function Waiting(name: string, pv: Pv, q: seq<Pv>, channels: seq<Channel>): Source {
    Bound(name, pv, channels).(attached := map[name := q])
  }

  lemma BoundLookup(name: string, pv: Pv, channels: seq<Channel>)
    ensures Next(Bound(name, pv, channels), Lookup(name)) == Bound(name, pv, channels + [Channel(name, Looked(pv))])
  {
  }

  lemma BoundEnqueue(name: string, pv: Pv, channels: seq<Channel>)
    ensures Next(Bound(name, pv, channels + [Channel(name, Looked(pv))]), Enqueue(|channels|))
         == Waiting(name, pv, [pv], channels + [Channel(name, Queued(pv))])
  {
    FirstInQueue(name, pv);
    assert (channels + [Channel(name, Looked(pv))])[|channels| := Channel(name, Queued(pv))]
        == channels + [Channel(name, Queued(pv))];
  }

  /** A close of an open that found nothing takes the waiting attachment. */
  lemma {:induction false} MissedClose(name: string, pv: Pv)
    ensures var s := Waiting(name, pv, [pv], [Channel(name, Opened([])), Channel(name, Queued(pv))]);
            Count(Next(Next(s, Pop(0)), Detach(0)), pv) == -1
  {
    var s := Waiting(name, pv, [pv], [Channel(name, Opened([])), Channel(name, Queued(pv))]);
    assert Queue(s.attached, name) == [pv];
    assert At(Next(s, Pop(0)), 0) == Leaving([], pv);
  }

  /** An open that finds no PV, then one that does and waits. */
  lemma {:induction false} ToMissed(name: string, pv: Pv) returns (actions: seq<Action>)
    ensures NoRebind(actions) && !NoMiss(actions)
    ensures Run(actions) == Waiting(name, pv, [pv], [Channel(name, Opened([])), Channel(name, Queued(pv))])
  {
    var empty := [Channel(name, Opened([]))];
    var s1 := Source(map[], {}, map[], map[], empty, map[], map[]);
    actions := Follow([], Lookup(name), EMPTY, s1);
    assert Misses(EMPTY, Lookup(name));
    assert forall p :: !InUse(s1, name, p);
    actions := Follow(actions, Add(name, pv), s1, Bound(name, pv, empty));
    BoundLookup(name, pv, empty);
    var looked := Bound(name, pv, empty + [Channel(name, Looked(pv))]);
    actions := Follow(actions, Lookup(name), Bound(name, pv, empty), looked);
    BoundEnqueue(name, pv, empty);
    actions := Follow(actions, Enqueue(1), looked, Waiting(name, pv, [pv], empty + [Channel(name, Queued(pv))]));
    assert empty + [Channel(name, Queued(pv))] == [Channel(name, Opened([])), Channel(name, Queued(pv))];
  }

  /** The first condition is needed: the close of a channel that found no PV takes the attachment of
      one that did, before it is attached. */
  lemma {:induction false} OneMissIsEnough(name: string, pv: Pv) returns (actions: seq<Action>)
    ensures NoRebind(actions) && !NoMiss(actions) && Count(Run(actions), pv) == -1
  {
    actions := ToMissed(name, pv);
    var s4 := Run(actions);
    var s5 := Next(s4, Pop(0));
    actions := Follow(actions, Pop(0), s4, s5);
    actions := Follow(actions, Detach(0), s5, Next(s5, Detach(0)));
    MissedClose(name, pv);
  }

  lemma RemoveWhileWaiting(name: string, first: Pv, second: Pv, channels: seq<Channel>)
    ensures var s := Waiting(name, first, [first], channels);
            && Next(Next(Next(s, Remove(name)), RemoveInner(name)), Add(name, second))
               == Waiting(name, second, [first], channels)
            && AddTakes(Next(Next(s, Remove(name)), RemoveInner(name)), name)
            && InUse(Next(Next(s, Remove(name)), RemoveInner(name)), name, first)
  {
    var s := Waiting(name, first, [first], channels);
    var s' := Next(Next(s, Remove(name)), RemoveInner(name));
    assert s'.entries == map[] && s'.inner == {};
    assert Queue(s'.attached, name)[0] == first;
    assert s'.entries[name := second] == map[name := second] && s'.bound[name := second] == map[name := second];
  }

  /** `name` goes to `second` while an attachment of `first` waits in its queue. */
  lemma {:induction false} ToRebound(name: string, first: Pv, second: Pv) returns (actions: seq<Action>)
    requires first != second
    ensures NoMiss(actions) && !NoRebind(actions)
    ensures Run(actions) == Waiting(name, second, [first], [Channel(name, Queued(first))])
  {
    var looked, queued := [] + [Channel(name, Looked(first))], [] + [Channel(name, Queued(first))];
    var s3 := Waiting(name, first, [first], queued);
    actions := Follow([], Add(name, first), EMPTY, Bound(name, first, []));
    BoundLookup(name, first, []);
    actions := Follow(actions, Lookup(name), Bound(name, first, []), Bound(name, first, looked));
    BoundEnqueue(name, first, []);
    actions := Follow(actions, Enqueue(0), Bound(name, first, looked), s3);
    var s4 := Next(s3, Remove(name));
    var s5 := Next(s4, RemoveInner(name));
    actions := Follow(actions, Remove(name), s3, s4);
    actions := Follow(actions, RemoveInner(name), s4, s5);
    RemoveWhileWaiting(name, first, second, queued);
    actions := Follow(actions, Add(name, second), s5, Next(s5, Add(name, second)));
    assert queued == [Channel(name, Queued(first))];
  }

  lemma OpenBehind(name: string, first: Pv, second: Pv)
    ensures var s := Waiting(name, second, [first], [Channel(name, Queued(first))]);
            Next(Next(s, Lookup(name)), Enqueue(1))
            == Waiting(name, second, [first, second], [Channel(name, Queued(first)), Channel(name, Queued(second))])
  {
    var s := Waiting(name, second, [first], [Channel(name, Queued(first))]);
    var s' := Next(s, Lookup(name));
    assert s'.channels == [Channel(name, Queued(first)), Channel(name, Looked(second))];
    assert Queue(s'.attached, name) + [second] == [first, second];
    assert s'.attached[name := [first, second]] == map[name := [first, second]];
    assert s'.channels[1 := Channel(name, Queued(second))] == [Channel(name, Queued(first)), Channel(name, Queued(second))];
  }

  lemma {:induction false} CloseTakesOldest(name: string, first: Pv, second: Pv)
    requires first != second
    ensures var s := Waiting(name, second, [first, second], [Channel(name, Queued(first)), Channel(name, Queued(second))]);
            Count(Next(Next(Next(s, Attach(1)), Pop(1)), Detach(1)), first) == -1
  {
    var s := Waiting(name, second, [first, second], [Channel(name, Queued(first)), Channel(name, Queued(second))]);
    var s1 := Next(s, Attach(1));
    assert Queue(s1.attached, name) == [first, second] && At(s1, 1) == Opened([second]);
    var s2 := Next(s1, Pop(1));
    assert Count(s2, first) == 0 && At(s2, 1) == Leaving([second], first);
  }

  /** So is the second: every open finds a PV, but the name goes to another one while the first is
      queued and not attached, and the close of a channel of the second takes the first. */
  lemma {:induction false} OneRebindIsEnough(name: string, first: Pv, second: Pv) returns (actions: seq<Action>)
    requires first != second
    ensures NoMiss(actions) && !NoRebind(actions) && Count(Run(actions), first) == -1
  {
    actions := ToRebound(name, first, second);
    var s6 := Run(actions);
    var s7 := Next(s6, Lookup(name));
    actions := Follow(actions, Lookup(name), s6, s7);
    var s8 := Next(s7, Enqueue(1));
    actions := Follow(actions, Enqueue(1), s7, s8);
    var s9 := Next(s8, Attach(1));
    actions := Follow(actions, Attach(1), s8, s9);
    var s10 := Next(s9, Pop(1));
    actions := Follow(actions, Pop(1), s9, s10);
    actions := Follow(actions, Detach(1), s10, Next(s10, Detach(1)));
    OpenBehind(name, first, second);
    CloseTakesOldest(name, first, second);
  }

  /** One more step of a run that is at `s`. */
  lemma Follow(actions: seq<Action>, a: Action, s: Source, s': Source) returns (longer: seq<Action>)
    requires Run(actions) == s && Next(s, a) == s'
    ensures longer == actions + [a] && Run(longer) == s'
    ensures NoMiss(longer) <==> NoMiss(actions) && !Misses(s, a)
    ensures NoRebind(longer) <==> NoRebind(actions) && !Rebinds(s, a)
  {
    longer := actions + [a];
    RunSnoc(actions, a);
  }

  // ---- The object, one whole call at a time ----

  class PySource {
    var entries: map<string, Pv>
    var inner: set<string>
    var attached: map<string, seq<Pv>>
    var counts: map<Pv, int>
    var edges: map<Pv, seq<Edge>>
    ghost var bound: map<string, Pv>
    ghost var channels: seq<Channel>

    constructor ()
      ensures State() == EMPTY
    {
      entries, inner, attached, counts, edges, bound, channels := map[], {}, map[], map[], map[], map[], [];
    }

    ghost function State(): Source
      reads this
    {
      Source(entries, inner, bound, attached, channels, counts, edges)
    }

    method Add(name: string, pv: Pv) returns (ok: bool)
      modifies this
      ensures State() == Next(old(State()), Action.Add(name, pv))
      ensures ok == (name !in old(entries) && name !in old(inner))
      ensures ok ==> entries == old(entries)[name := pv] && inner == old(inner) + {name}
      ensures !ok ==> entries == old(entries) && inner == old(inner)
      ensures attached == old(attached) && counts == old(counts)
    {
      if name in entries || name in inner {
        return false;
      }
      inner := inner + {name};
      entries := entries[name := pv];
      bound := bound[name := pv];
      return true;
    }

    method Remove(name: string) returns (removed: bool)
      modifies this
      ensures State() == Next(Next(old(State()), Action.Remove(name)), RemoveInner(name))
      ensures removed == (name in old(entries))
      ensures name !in entries && name !in inner && entries == old(entries) - {name}
      ensures attached == old(attached) && counts == old(counts)
    {
      removed := name in entries;
      entries := entries - {name};
      inner := inner - {name};
    }

    method Shift(pv: Pv, up: bool)
      modifies this`counts, this`edges
      ensures State() == Move(old(State()), pv, up)
    {
      var n := if pv in counts then counts[pv] else 0;
      var log := if pv in edges then edges[pv] else [];
      if up {
        if n == 0 {
          log := log + [FirstConnect];
        }
        n := n + 1;
      } else {
        if n == 1 {
          log := log + [LastDisconnect];
        }
        n := n - 1;
      }
      counts, edges := counts[pv := n], edges[pv := log];
      assert Edges(old(State()), pv) + [] == Edges(old(State()), pv);
    }

    /** The open of a new channel. */
    method NotifyChannelOpen(name: string)
      modifies this
      ensures var ch := |old(channels)|;
              State() == Next(Next(Next(old(State()), Lookup(name)), Enqueue(ch)), Attach(ch))
      ensures var found := name in old(entries);
              && attached == (if found then old(attached)[name := Queue(old(attached), name) + [old(entries)[name]]]
                              else old(attached))
              && (found ==> Count(State(), old(entries)[name]) == Count(old(State()), old(entries)[name]) + 1)
              && (forall pv | !found || pv != old(entries)[name] :: Count(State(), pv) == Count(old(State()), pv))
    {
      ghost var s := Next(old(State()), Lookup(name));
      ghost var ch := |channels|;
      channels := s.channels;
      if name in entries {
        var pv := entries[name];
        var q := if name in attached then attached[name] else [];
        attached := attached[name := q + [pv]];
        channels := channels[ch := Channel(name, Queued(pv))];
        assert State() == Next(s, Enqueue(ch));
        channels := channels[ch := Channel(name, Opened([pv]))];
        Shift(pv, true);
      }
    }

    /** The close of channel `ch`, which the library opened and has not closed yet. */
    method NotifyChannelClose(name: string, ghost ch: nat)
      requires ch < |channels| && channels[ch].name == name && channels[ch].phase.Opened?
      modifies this
      ensures State() == Next(Next(old(State()), Pop(ch)), Detach(ch))
      ensures var q := Queue(old(attached), name);
              && Queue(attached, name) == (if q == [] then [] else q[1..])
              && (q != [] ==> Count(State(), q[0]) == Count(old(State()), q[0]) - 1)
              && (forall k | k != name :: Queue(attached, k) == Queue(old(attached), k))
              && (forall pv | q == [] || pv != q[0] :: Count(State(), pv) == Count(old(State()), pv))
    {
      ghost var own := channels[ch].phase.own;
      channels := channels[ch := Channel(name, Closed)];
      if name in attached && attached[name] != [] {
        var pv := attached[name][0];
        var q := attached[name][1..];
        attached := if q == [] then attached - {name} else attached[name := q];
        Shift(pv, false);
        ghost var s := Next(old(State()), Pop(ch));
        assert s.channels == old(channels)[ch := Channel(name, Leaving(own, pv))];
        assert s.channels[ch := Channel(name, Closed)] == channels;
      } else {
        assert old(channels)[ch := Channel(name, Closed)] == channels;
      }
    }
  }
}
