/**
 `src/pva/server.rs`: one served PV. A post writes its marked leaves into the
 stored value and hands `(value, marks)` to every subscriber's ring; a client PUT
 is merged with the value of its arrival and posted later by a handler.
 */
module SharedPv {
  import opened Common
  import opened PvDesc
  import opened PvValue
  import opened Updates

  // ---- Subscribers ----

  /** A subscriber's ring. A plain one carries whole values, so every bit is news to it. */
  datatype Subscriber = Subscriber(marked: bool, limit: nat, ring: seq<Delta>, live: bool)

  const EVERYTHING: set<nat> := {0}

  function PostTo(sub: Subscriber, cur: PvField, marks: set<nat>): Subscriber {
    sub.(ring := RingPost(sub.limit, sub.ring, Delta(if sub.marked then marks else EVERYTHING, cur)))
  }

  /** Every live subscriber with the post in its ring; the others are dropped. */
  function Deliver(subs: seq<Subscriber>, cur: PvField, marks: set<nat>): seq<Subscriber> {
    if subs == [] then []
    else
      Deliver(subs[..|subs| - 1], cur, marks)
      + if subs[|subs| - 1].live then [PostTo(subs[|subs| - 1], cur, marks)] else []
  }

  // ---- The PV ----

  datatype PostError = NotOpen | TypeDiffers | AlreadyOpen

  datatype PvState = PvState(openType: Option<FieldDesc>, stored: Option<PvField>, marks: set<nat>, subs: seq<Subscriber>)

  const CLOSED := PvState(None, None, {}, [])

  /** Open exactly when a value is stored, and the value has the open type. */
  predicate StateOk(st: PvState) {
    match (st.openType, st.stored)
    case (None, None) => st.marks == {}
    case (Some(d), Some(v)) => WellFormed(d) && Conforms(d, v)
    case _ => false
  }

  function Posted(st: PvState, d: FieldDesc, value: PvField, marks: set<nat>): Result<PvState, PostError> {
    if st.openType.None? || st.stored.None? then Err(NotOpen)
    else if d != st.openType.value then Err(TypeDiffers)
    else if marks == {} then Ok(st)
    else
      var cur := PostDelta(d, marks, 0, value, st.stored.value);
      Ok(PvState(st.openType, Some(cur), st.marks + marks, Deliver(st.subs, cur, marks)))
  }

  class PvEntry {
    var openType: Option<FieldDesc>
    var stored: Option<PvField>
    var marks: set<nat>
    var subs: seq<Subscriber>

    constructor ()
      ensures State() == CLOSED
    {
      openType, stored, marks, subs := None, None, {}, [];
    }

    function State(): PvState
      reads this
    {
      PvState(openType, stored, marks, subs)
    }

    method Open(d: FieldDesc, value: PvField, initialMarks: set<nat>) returns (r: Result<(), PostError>)
      requires StateOk(State()) && WellFormed(d) && Conforms(d, value)
      modifies this
      ensures StateOk(State())
      ensures old(stored).Some? ==> r == Err(AlreadyOpen) && State() == old(State())
      ensures old(stored).None? ==>
                r.Ok? && State() == PvState(Some(d), Some(value), initialMarks, old(subs))
    {
      if stored.Some? {
        return Err(AlreadyOpen);
      }
      stored := Some(value);
      marks := initialMarks;
      openType := Some(d);
      return Ok(());
    }

    /** `from` says which of the subscribers there were each one that is left has been. */
    method Post(d: FieldDesc, value: PvField, postMarks: set<nat>)
      returns (r: Result<(), PostError>, ghost from: seq<nat>)
      requires StateOk(State()) && Conforms(d, value)
      modifies this
      ensures StateOk(State())
      ensures if r.Ok? && postMarks != {} then Reached(d, old(State()), from, State(), postMarks) else State() == old(State())
      ensures var after := Posted(old(State()), d, value, postMarks);
              && (after.Err? ==> r == Err(after.error) && State() == old(State()))
              && (after.Ok? ==> r.Ok? && State() == after.value)
    {
      if openType.None? {
        return Err(NotOpen), [];
      }
      if openType.value != d {
        return Err(TypeDiffers), [];
      }
      if postMarks == {} {
        return Ok(()), [];
      }
      from := PostedReaches(State(), value, postMarks);
      var cur := PostDelta(d, postMarks, 0, value, stored.value);
      stored := Some(cur);
      marks := marks + postMarks;
      Retain(cur, postMarks);
      return Ok(()), from;
    }

    /** The post goes into every ring that is still there; the others are let go. */
    method Retain(cur: PvField, postMarks: set<nat>)
      modifies this`subs
      ensures subs == Deliver(old(subs), cur, postMarks)
    {
      var kept: seq<Subscriber> := [];
      var i := 0;
      while i < |subs|
        invariant i <= |subs| && subs == old(subs)
        invariant kept == Deliver(subs[..i], cur, postMarks)
      {
        var sub := PostTo(subs[i], cur, postMarks);
        assert subs[..i + 1][..i] == subs[..i];
        if subs[i].live {
          kept := kept + [sub];
        }
        i := i + 1;
      }
      assert subs[..i] == subs;
      subs := kept;
    }

    method Close() returns (dropped: seq<Subscriber>)
      requires StateOk(State())
      modifies this
      ensures State() == CLOSED && dropped == old(subs)
    {
      marks, openType := {}, None;
      dropped := subs;
      subs := [];
      stored := None;
    }

    /** Register a ring and snapshot the seed. A plain ring carries the seed as its first element. */
    method Subscribe(limit: nat, marked: bool) returns (seed: Option<PvField>)
      requires StateOk(State())
      modifies this`subs
      ensures StateOk(State()) && seed == stored
      ensures stored.None? ==> subs == old(subs)
      ensures stored.Some? ==>
                subs == old(subs)
                        + [Subscriber(marked, limit, if marked then [] else [Delta(EVERYTHING, stored.value)], true)]
    {
      if stored.None? {
        return None;
      }
      var ring := if marked then [] else [Delta(EVERYTHING, stored.value)];
      subs := subs + [Subscriber(marked, limit, ring, true)];
      return stored;
    }

    /** The stored value with every mark since the open. */
    method Current() returns (r: Option<(FieldDesc, PvField, set<nat>)>)
      requires StateOk(State())
      ensures r.None? <==> openType.None?
      ensures r.Some? ==> Some(r.value.0) == openType && Some(r.value.1) == stored && r.value.2 == marks
    {
      if openType.None? {
        return None;
      }
      return Some((openType.value, stored.value, marks));
    }
  }

  /** What a subscriber's ring says about the stored value, beyond what it has already read. */
  ghost predicate RingLeadsTo(d: FieldDesc, read: PvField, ring: seq<Delta>, stored: PvField) {
    && DeltasConform(d, ring)
    && (ring != [] ==> ring[|ring| - 1].value == stored)
    && Replay(d, read, ring) == stored
  }

  /** A post keeps every ring leading from what its client has read to the stored value,
      squashed or not: the post is in the ring, or in a merge of it. */
  lemma {:induction false} PostReachesRing(
      d: FieldDesc, read: PvField, ring: seq<Delta>, limit: nat, stored: PvField, value: PvField, marks: set<nat>)
    requires WellFormed(d) && Conforms(d, read) && Conforms(d, stored) && Conforms(d, value)
    requires RingLeadsTo(d, read, ring, stored)
    ensures var cur := PostDelta(d, marks, 0, value, stored);
            Conforms(d, cur) && RingLeadsTo(d, read, RingPost(limit, ring, Delta(marks, cur)), cur)
  {
    var cur := PostDelta(d, marks, 0, value, stored);
    var x := Delta(marks, cur);
    PostDeltaIsFill(d, marks, 0, value, stored);
    FillConforms(d, marks, 0, value, stored);
    OverlayAbsorbs(d, marks, value, stored, stored);
    ReplaySnoc(d, read, ring, x);
    if |ring| >= limit && ring != [] {
      ReplaySquash(d, read, ring, x);
    }
  }

  /** `left` are exactly the live ones of `subs`, in order, unchanged but for their rings; `from[k]`
      is where the `k`th of them was. */
  ghost predicate LiveOnes(subs: seq<Subscriber>, from: seq<nat>, left: seq<Subscriber>) {
    && |from| == |left|
    && (forall j, k | 0 <= j < k < |from| :: from[j] < from[k])
    && (forall k | 0 <= k < |from| :: from[k] < |subs| && left[k].(ring := subs[from[k]].ring) == subs[from[k]])
    && (forall i | 0 <= i < |subs| :: i in from <==> subs[i].live)
  }

  /** A ring after a post with `marks`: a marked one that led its client from what it has read to the
      old stored value leads it to the new one, by an update that says what was posted and no more; a plain
      one ends in the whole new value. While there is room, nothing in the ring is touched. */
  ghost predicate PostArrived(
      d: FieldDesc, before: Subscriber, stored: PvField, after: Subscriber, cur: PvField, marks: set<nat>) {
    var n := |after.ring| - 1;
    && n >= 0 && after.ring[n].value == cur
    && (if |before.ring| < before.limit || before.ring == []
        then n == |before.ring| && after.ring[..n] == before.ring
        else n == |before.ring| - 1 && after.ring[..n] == before.ring[..n])
    && (before.marked ==>
          && after.ring[n].changed == (if n < |before.ring| then before.ring[n].changed + marks else marks)
          && forall read | Conforms(d, read) && RingLeadsTo(d, read, before.ring, stored) ::
               RingLeadsTo(d, read, after.ring, cur))
    && (!before.marked ==> 0 in after.ring[n].changed)
  }

  /** A marked post on an open PV: type and value, and who has it in the ring. */
  ghost predicate Reached(d: FieldDesc, before: PvState, from: seq<nat>, after: PvState, marks: set<nat>) {
    && before.openType == after.openType == Some(d)
    && before.stored.Some? && after.stored.Some? && Conforms(d, after.stored.value)
    && LiveOnes(before.subs, from, after.subs)
    && forall k | 0 <= k < |after.subs| ::
         PostArrived(d, before.subs[from[k]], before.stored.value, after.subs[k], after.stored.value, marks)
  }

  lemma {:induction false} PostedReaches(st: PvState, value: PvField, marks: set<nat>) returns (from: seq<nat>)
    requires StateOk(st) && st.openType.Some? && Conforms(st.openType.value, value) && marks != {}
    ensures var after := Posted(st, st.openType.value, value, marks);
            after.Ok? && Reached(st.openType.value, st, from, after.value, marks) && StateOk(after.value)
  {
    var d := st.openType.value;
    PostDeltaIsFill(d, marks, 0, value, st.stored.value);
    FillConforms(d, marks, 0, value, st.stored.value);
    from := PostReachesSubscribers(d, st.subs, st.stored.value, value, marks);
  }

  lemma {:induction false} PostArrives(d: FieldDesc, sub: Subscriber, stored: PvField, value: PvField, marks: set<nat>)
    requires WellFormed(d) && Conforms(d, stored) && Conforms(d, value)
    ensures var cur := PostDelta(d, marks, 0, value, stored);
            PostArrived(d, sub, stored, PostTo(sub, cur, marks), cur, marks)
  {
    var cur := PostDelta(d, marks, 0, value, stored);
    if sub.marked {
      forall read | Conforms(d, read) && RingLeadsTo(d, read, sub.ring, stored)
        ensures RingLeadsTo(d, read, PostTo(sub, cur, marks).ring, cur)
      {
        PostReachesRing(d, read, sub.ring, sub.limit, stored, value, marks);
      }
    }
  }

  lemma OneMore(subs: seq<Subscriber>, from: seq<nat>, left: seq<Subscriber>, cur: PvField, marks: set<nat>)
    requires subs != [] && LiveOnes(subs[..|subs| - 1], from, left)
    ensures var n := |subs| - 1;
            if subs[n].live then LiveOnes(subs, from + [n], left + [PostTo(subs[n], cur, marks)]) else LiveOnes(subs, from, left)
  {
    var n := |subs| - 1;
    assert forall i | 0 <= i < n :: subs[..n][i] == subs[i];
    if subs[n].live {
      assert forall i: nat :: i in from + [n] <==> i in from || i == n;
    }
  }

  /** A post reaches every live subscriber and drops the others. */
  lemma {:induction false} PostReachesSubscribers(
      d: FieldDesc, subs: seq<Subscriber>, stored: PvField, value: PvField, marks: set<nat>) returns (from: seq<nat>)
    requires WellFormed(d) && Conforms(d, stored) && Conforms(d, value)
    ensures var cur := PostDelta(d, marks, 0, value, stored);
            var left := Deliver(subs, cur, marks);
            && LiveOnes(subs, from, left)
            && forall k | 0 <= k < |left| :: PostArrived(d, subs[from[k]], stored, left[k], cur, marks)
    decreases |subs|
  {
    from := [];
    if subs != [] {
      var n := |subs| - 1;
      var cur := PostDelta(d, marks, 0, value, stored);
      from := PostReachesSubscribers(d, subs[..n], stored, value, marks);
      OneMore(subs, from, Deliver(subs[..n], cur, marks), cur, marks);
      if subs[n].live {
        PostArrives(d, subs[n], stored, value, marks);
        from := from + [n];
      }
    }
  }

  // ---- The reply slot of a client operation ----

  class ServerOperation<Reply> {
    var waiting: bool
    var sent: seq<Reply>

    constructor ()
      ensures waiting && sent == []
    {
      waiting, sent := true, [];
    }

    /** An operation is answered at most once. */
    predicate AtMostOnce()
      reads this
    {
      |sent| == if waiting then 0 else 1
    }

    /** `done()`: the first call answers, any later one is an error. */
    method Finish(reply: Reply) returns (ok: bool)
      requires AtMostOnce()
      modifies this
      ensures AtMostOnce() && !waiting
      ensures ok == old(waiting)
      ensures sent == if ok then [reply] else old(sent)
    {
      ok := waiting;
      if waiting {
        waiting := false;
        sent := sent + [reply];
      }
    }
  }

  // ---- PUTs merged from a stale prior ----

  /** A client PUT arrives and is merged with the value of that moment, or its handler posts it. */
  datatype PutEvent = Arrive(op: nat) | Post(op: nat)

  datatype PutState = PutState(stored: PvField, merged: map<nat, PvField>)

  /** Arrivals merge with the value of that moment; a post writes the merged value back. */
  function RunPuts(d: FieldDesc, ops: seq<Delta>, events: seq<PutEvent>, start: PvField): PutState {
    if events == [] then PutState(start, map[])
    else
      PutStep(d, ops, RunPuts(d, ops, events[..|events| - 1], start), events[|events| - 1])
  }

  function PutStep(d: FieldDesc, ops: seq<Delta>, st: PutState, event: PutEvent): PutState {
    match event
    case Arrive(op) =>
      if op >= |ops| then st
      else st.(merged := st.merged[op := FillUnmarked(d, ops[op].changed, 0, ops[op].value, st.stored)])
    case Post(op) =>
      if op >= |ops| || op !in st.merged || ops[op].changed == {} then st
      else st.(stored := PostDelta(d, ops[op].changed, 0, st.merged[op], st.stored))
  }

  function Arrived(events: seq<PutEvent>): set<nat> {
    set e | e in events && e.Arrive? :: e.op
  }

  /** The operations posted, in order. */
  function PostedOps(ops: seq<Delta>, events: seq<PutEvent>): seq<nat> {
    if events == [] then []
    else
      var before := events[..|events| - 1];
      PostedOps(ops, before)
      + match events[|events| - 1]
        case Arrive(_) => []
        case Post(op) => if op < |ops| && op in Arrived(before) then [op] else []
  }

  function Select(ops: seq<Delta>, picked: seq<nat>): (ds: seq<Delta>)
    requires forall i | 0 <= i < |picked| :: picked[i] < |ops|
    ensures |ds| == |picked|
  {
    seq(|picked|, i requires 0 <= i < |picked| => ops[picked[i]])
  }

  lemma {:induction false} PostedInRange(ops: seq<Delta>, events: seq<PutEvent>)
    ensures forall i | 0 <= i < |PostedOps(ops, events)| :: PostedOps(ops, events)[i] < |ops|
    decreases |events|
  {
    if events != [] {
      PostedInRange(ops, events[..|events| - 1]);
    }
  }

  ghost predicate MergedOk(d: FieldDesc, ops: seq<Delta>, events: seq<PutEvent>, st: PutState) {
    && Conforms(d, st.stored)
    && (forall op | op in st.merged :: op < |ops|
          && Conforms(d, st.merged[op]) && AgreeOn(d, ops[op].changed, st.merged[op], ops[op].value))
    && (forall op | op < |ops| :: op in st.merged <==> op in Arrived(events))
  }

  lemma ArrivedSnoc(events: seq<PutEvent>)
    requires events != []
    ensures Arrived(events) == Arrived(events[..|events| - 1])
                               + if events[|events| - 1].Arrive? then {events[|events| - 1].op} else {}
  {
    assert events == events[..|events| - 1] + [events[|events| - 1]];
  }

  lemma {:induction false} ArriveKeeps(d: FieldDesc, ops: seq<Delta>, events: seq<PutEvent>, st: PutState, op: nat)
    requires WellFormed(d) && DeltasConform(d, ops) && MergedOk(d, ops, events, st)
    ensures MergedOk(d, ops, events + [Arrive(op)], PutStep(d, ops, st, Arrive(op)))
  {
    assert (events + [Arrive(op)])[..|events|] == events;
    ArrivedSnoc(events + [Arrive(op)]);
    if op < |ops| {
      OverlayAgreesOn(d, ops[op].changed, ops[op].value, st.stored);
    }
  }

  lemma {:induction false} PostKeeps(d: FieldDesc, ops: seq<Delta>, events: seq<PutEvent>, st: PutState, op: nat)
    requires WellFormed(d) && DeltasConform(d, ops) && MergedOk(d, ops, events, st)
    ensures MergedOk(d, ops, events + [Post(op)], PutStep(d, ops, st, Post(op)))
  {
    assert (events + [Post(op)])[..|events|] == events;
    ArrivedSnoc(events + [Post(op)]);
    if op < |ops| && op in st.merged {
      PostedStep(d, ops[op], st.merged[op], st.stored);
    }
  }

  /** At every point the arrived operations hold values that agree with the client's own
      delta on the leaves it marked. */
  lemma {:induction false} MergesAgree(d: FieldDesc, ops: seq<Delta>, events: seq<PutEvent>, start: PvField)
    requires WellFormed(d) && Conforms(d, start) && DeltasConform(d, ops)
    ensures MergedOk(d, ops, events, RunPuts(d, ops, events, start))
    decreases |events|
  {
    if events != [] {
      var before := events[..|events| - 1];
      MergesAgree(d, ops, before, start);
      assert events == before + [events[|events| - 1]];
      match events[|events| - 1]
      case Arrive(op) => ArriveKeeps(d, ops, before, RunPuts(d, ops, before, start), op);
      case Post(op) => PostKeeps(d, ops, before, RunPuts(d, ops, before, start), op);
    }
  }

  /** No matter which value a PUT was merged from, and how the arrivals and posts interleave,
      the stored value is the start overlaid with the clients' own marked leaves in posting order. */
  lemma {:induction false} StaleMergesDoNotClobber(d: FieldDesc, ops: seq<Delta>, events: seq<PutEvent>, start: PvField)
    requires WellFormed(d) && Conforms(d, start) && DeltasConform(d, ops)
    ensures forall i | 0 <= i < |PostedOps(ops, events)| :: PostedOps(ops, events)[i] < |ops|
    ensures RunPuts(d, ops, events, start).stored == Replay(d, start, Select(ops, PostedOps(ops, events)))
    decreases |events|
  {
    PostedInRange(ops, events);
    if events != [] {
      var before := events[..|events| - 1];
      StaleMergesDoNotClobber(d, ops, before, start);
      MergesAgree(d, ops, before, start);
      PostedNext(d, ops, events, start);
    }
  }

  /** One event, given what was posted before it. */
  lemma {:induction false} PostedNext(d: FieldDesc, ops: seq<Delta>, events: seq<PutEvent>, start: PvField)
    requires WellFormed(d) && Conforms(d, start) && DeltasConform(d, ops) && events != []
    requires forall i | 0 <= i < |PostedOps(ops, events)| :: PostedOps(ops, events)[i] < |ops|
    requires var before := events[..|events| - 1];
             && MergedOk(d, ops, before, RunPuts(d, ops, before, start))
             && (forall i | 0 <= i < |PostedOps(ops, before)| :: PostedOps(ops, before)[i] < |ops|)
             && RunPuts(d, ops, before, start).stored == Replay(d, start, Select(ops, PostedOps(ops, before)))
    ensures RunPuts(d, ops, events, start).stored == Replay(d, start, Select(ops, PostedOps(ops, events)))
  {
    var before := events[..|events| - 1];
    var st := RunPuts(d, ops, before, start);
    var picked := PostedOps(ops, before);
    var e := events[|events| - 1];
    if e.Post? && e.op < |ops| && e.op in st.merged {
      PostedStep(d, ops[e.op], st.merged[e.op], st.stored);
      assert PostedOps(ops, events) == picked + [e.op];
      SelectSnoc(d, start, ops, picked, e.op);
    } else {
      assert PostedOps(ops, events) == picked;
    }
  }

  lemma SelectSnoc(d: FieldDesc, start: PvField, ops: seq<Delta>, picked: seq<nat>, op: nat)
    requires op < |ops| && forall i | 0 <= i < |picked| :: picked[i] < |ops|
    ensures Replay(d, start, Select(ops, picked + [op])) == Apply(d, ops[op], Replay(d, start, Select(ops, picked)))
  {
    assert Select(ops, picked + [op]) == Select(ops, picked) + [ops[op]];
    ReplaySnoc(d, start, Select(ops, picked), ops[op]);
  }

  lemma {:induction false} PostedStep(d: FieldDesc, op: Delta, merged: PvField, stored: PvField)
    requires WellFormed(d) && Conforms(d, op.value) && Conforms(d, merged) && Conforms(d, stored)
    requires AgreeOn(d, op.changed, merged, op.value)
    ensures Conforms(d, Apply(d, op, stored))
    ensures PostDelta(d, op.changed, 0, merged, stored) == Apply(d, op, stored)
    ensures op.changed == {} ==> Apply(d, op, stored) == stored
  {
    PostDeltaIsFill(d, op.changed, 0, merged, stored);
    FillConforms(d, op.changed, 0, op.value, stored);
    OverlayUsesCoveredOnly(d, op.changed, merged, op.value, stored);
    if op.changed == {} {
      forall segs | IsLeaf(d, segs) ensures FieldAt(Apply(d, op, stored), segs) == FieldAt(stored, segs) {
        OverlayAtLeaf(d, op.changed, op.value, stored, segs);
        NothingCovered(d, 0, segs);
      }
      LeavesDetermine(d, Apply(d, op, stored), stored);
    }
  }

  lemma {:induction false} NothingCovered(d: FieldDesc, bit: nat, segs: seq<string>)
    ensures !CoveredAt(d, bit, {}, segs)
    decreases |segs|
  {
    if segs != [] && d.Structure? && Lookup(d.fields, segs[0]).Some? {
      NothingCovered(Lookup(d.fields, segs[0]).value, bit + 1 + OffsetOf(d.fields, segs[0]), segs[1..]);
    }
  }

  // ---- A PV over one open epoch ----

  function PostAll(st: PvState, d: FieldDesc, ds: seq<Delta>): PvState {
    if ds == [] then st
    else
      var before := PostAll(st, d, ds[..|ds| - 1]);
      match Posted(before, d, ds[|ds| - 1].value, ds[|ds| - 1].changed)
      case Ok(after) => after
      case Err(_) => before
  }

  /** Posts add up: the stored value is the opened one overlaid with every post's marked leaves, and
      the marks are exactly those of the opening and of the posts. */
  lemma {:induction false} PostsAddUp(st: PvState, d: FieldDesc, ds: seq<Delta>)
    requires StateOk(st) && st.openType == Some(d) && DeltasConform(d, ds)
    ensures var end := PostAll(st, d, ds);
            && StateOk(end) && end.openType == Some(d)
            && end.stored == Some(Replay(d, st.stored.value, ds))
            && forall b :: b in end.marks <==> b in st.marks || exists i | 0 <= i < |ds| :: b in ds[i].changed
    decreases |ds|
  {
    if ds != [] {
      var init, x := ds[..|ds| - 1], ds[|ds| - 1];
      PostsAddUp(st, d, init);
      var before := PostAll(st, d, init);
      PostedStep(d, x, x.value, before.stored.value);
      assert ds == init + [x];
      ReplaySnoc(d, st.stored.value, init, x);
      PostedMarks(init, x, before.marks, st.marks);
    }
  }

  lemma {:induction false} PostedMarks(init: seq<Delta>, x: Delta, before: set<nat>, start: set<nat>)
    requires forall b :: b in before <==> b in start || exists i | 0 <= i < |init| :: b in init[i].changed
    ensures var ds := init + [x];
            forall b :: b in before + x.changed <==> b in start || exists i | 0 <= i < |ds| :: b in ds[i].changed
  {
    var ds := init + [x];
    forall b ensures b in before + x.changed <==> b in start || exists i | 0 <= i < |ds| :: b in ds[i].changed {
      if b in x.changed {
        assert b in ds[|init|].changed;
      } else if i :| 0 <= i < |init| && b in init[i].changed {
        assert b in ds[i].changed;
      }
    }
  }

  /** So the marks account for every change since the open: a leaf they do not cover still holds
      what it was opened with. */
  lemma {:induction false} MarksAccountForChanges(st: PvState, d: FieldDesc, ds: seq<Delta>, segs: seq<string>)
    requires StateOk(st) && st.openType == Some(d) && DeltasConform(d, ds) && IsLeaf(d, segs)
    requires !Covered(d, PostAll(st, d, ds).marks, segs)
    ensures PostAll(st, d, ds).stored.Some?
    ensures FieldAt(PostAll(st, d, ds).stored.value, segs) == FieldAt(st.stored.value, segs)
    decreases |ds|
  {
    PostsAddUp(st, d, ds);
    if ds != [] {
      var init, x := ds[..|ds| - 1], ds[|ds| - 1];
      PostsAddUp(st, d, init);
      var before := PostAll(st, d, init);
      PostedStep(d, x, x.value, before.stored.value);
      CoveredByUnion(d, 0, before.marks, x.changed, segs);
      MarksAccountForChanges(st, d, init, segs);
      OverlayAtLeaf(d, x.changed, x.value, before.stored.value, segs);
    }
  }

  ghost predicate PairwiseDisjoint(d: FieldDesc, ops: seq<Delta>) {
    forall i, j | 0 <= i < |ops| && 0 <= j < |ops| && i != j :: DisjointlyCovered(d, ops[i].changed, ops[j].changed)
  }

  /** With disjoint PUTs, a leaf ends as its one writer left it, or as it started. */
  lemma {:induction false} LeafAfterDisjointPuts(
      d: FieldDesc, ops: seq<Delta>, picked: seq<nat>, start: PvField, segs: seq<string>)
    requires WellFormed(d) && Conforms(d, start) && DeltasConform(d, ops) && PairwiseDisjoint(d, ops)
    requires (forall i | 0 <= i < |picked| :: picked[i] < |ops|) && IsLeaf(d, segs)
    ensures var end := FieldAt(Replay(d, start, Select(ops, picked)), segs);
            && (forall op | op in picked && Covered(d, ops[op].changed, segs) :: end == FieldAt(ops[op].value, segs))
            && ((forall op | op in picked :: !Covered(d, ops[op].changed, segs)) ==> end == FieldAt(start, segs))
    decreases |picked|
  {
    if picked != [] {
      var init := picked[..|picked| - 1];
      var last := picked[|picked| - 1];
      assert picked == init + [last];
      LeafAfterDisjointPuts(d, ops, init, start, segs);
      assert Select(ops, picked) == Select(ops, init) + [ops[last]];
      ReplaySnoc(d, start, Select(ops, init), ops[last]);
      ReplayConforms(d, start, Select(ops, init));
      OverlayAtLeaf(d, ops[last].changed, ops[last].value, Replay(d, start, Select(ops, init)), segs);
      assert forall op | op in picked && op != last :: DisjointlyCovered(d, ops[op].changed, ops[last].changed);
    }
  }

  /** PUTs that share no marked leaf commute: two interleavings of arrivals and posts that
      posted the same operations end with the same stored value. */
  lemma {:induction false} DisjointPutsCommute(
      d: FieldDesc, ops: seq<Delta>, events: seq<PutEvent>, events': seq<PutEvent>, start: PvField)
    requires WellFormed(d) && Conforms(d, start) && DeltasConform(d, ops) && PairwiseDisjoint(d, ops)
    requires forall op :: op in PostedOps(ops, events) <==> op in PostedOps(ops, events')
    ensures RunPuts(d, ops, events, start).stored == RunPuts(d, ops, events', start).stored
  {
    StaleMergesDoNotClobber(d, ops, events, start);
    StaleMergesDoNotClobber(d, ops, events', start);
    var picked, picked' := PostedOps(ops, events), PostedOps(ops, events');
    var x, y := Replay(d, start, Select(ops, picked)), Replay(d, start, Select(ops, picked'));
    forall segs | IsLeaf(d, segs) ensures FieldAt(x, segs) == FieldAt(y, segs) {
      LeafAfterDisjointPuts(d, ops, picked, start, segs);
      LeafAfterDisjointPuts(d, ops, picked', start, segs);
    }
    ReplayConforms(d, start, Select(ops, picked));
    ReplayConforms(d, start, Select(ops, picked'));
    LeavesDetermine(d, x, y);
  }
}
