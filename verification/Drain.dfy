/**
 `Drain` of `src/ca.rs`: the one owner of "closed" for a handle Python pulls from. A pull
 keeps the slot's lock across its wait, so `close` first cancels a token that wakes it, and
 only then queues for the lock to drop the handle.

 Any number of pulls and closes run at once; a step of the machine is what one of them does
 between two points where another may get in. The slot's lock is first come, first served.
 */
module Drain {
  import opened Common

  datatype Stage =
    | New
    | Checked            // past the token check, or has cancelled the token
    | Queued             // in line for the slot's lock
    | Holding            // a pull inside its `select!`
    | Finished(got: bool)   // a pull: with an item; a close: it was the one to drop the handle;
                            // a borrow: it found the handle

  /** `With` borrows the handle without waiting on it, and reads no token. */
  datatype Caller = Pull(at: Stage) | Close(at: Stage) | With(at: Stage)

  datatype Slot = Slot(
    callers: seq<Caller>, cancelled: bool, queue: seq<nat>, holder: Option<nat>, handle: bool, drops: nat)

  datatype Step =
    | Begin(who: nat)       // a pull reads the token, a close cancels it, a borrow does neither
    | Line(who: nat)        // joins the lock's queue
    | Grant                 // the free lock goes to the head of the queue
    | Arrive(who: nat)      // the pulled future is ready
    | Interrupt(who: nat)   // the token branch of the pull's `select!`
    | Abandon(who: nat)     // a pull's future is dropped, by a timeout

  function Start(callers: seq<Caller>): Slot {
    Slot(callers, false, [], None, true, 0)
  }

  predicate Enabled(s: Slot, step: Step) {
    match step
    case Begin(who) => who < |s.callers| && s.callers[who].at.New?
    case Line(who) => who < |s.callers| && s.callers[who].at.Checked?
    case Grant => s.holder.None? && s.queue != [] && s.queue[0] < |s.callers|
    case Arrive(who) => s.holder == Some(who) && who < |s.callers|
    case Interrupt(who) => s.holder == Some(who) && who < |s.callers| && s.cancelled
    case Abandon(who) =>
      who < |s.callers| && s.callers[who].Pull? && !s.callers[who].at.Finished?
  }

  function Moved(s: Slot, who: nat, at: Stage): Slot
    requires who < |s.callers|
  {
    s.(callers := s.callers[who := s.callers[who].(at := at)])
  }

  function Without(queue: seq<nat>, who: nat): seq<nat> {
    if queue == [] then []
    else if queue[0] == who then queue[1..]
    else [queue[0]] + Without(queue[1..], who)
  }

  function Apply(s: Slot, step: Step): Slot
    requires Enabled(s, step)
  {
    match step
    case Begin(who) =>
      if s.callers[who].Close? then Moved(s, who, Checked).(cancelled := true)
      else if s.callers[who].Pull? && s.cancelled then Moved(s, who, Finished(false))
      else Moved(s, who, Checked)
    case Line(who) => Moved(s, who, Queued).(queue := s.queue + [who])
    case Grant =>
      var who := s.queue[0];
      if s.callers[who].Close? then
        Moved(s, who, Finished(s.handle)).(
          queue := s.queue[1..], handle := false, drops := s.drops + if s.handle then 1 else 0)
      else if s.callers[who].With? then Moved(s, who, Finished(s.handle)).(queue := s.queue[1..])
      else if s.handle then Moved(s, who, Holding).(queue := s.queue[1..], holder := Some(who))
      else Moved(s, who, Finished(false)).(queue := s.queue[1..])
    case Arrive(who) => Moved(s, who, Finished(true)).(holder := None)
    case Interrupt(who) => Moved(s, who, Finished(false)).(holder := None)
    case Abandon(who) =>
      Moved(s, who, Finished(false)).(
        queue := Without(s.queue, who), holder := if s.holder == Some(who) then None else s.holder)
  }

  ghost predicate Runs(s: Slot, steps: seq<Step>, states: seq<Slot>) {
    && |states| == |steps| + 1 && states[0] == s
    && (forall k | 0 <= k < |steps| :: Enabled(states[k], steps[k]) && states[k + 1] == Apply(states[k], steps[k]))
  }

  ghost predicate AllNew(callers: seq<Caller>) {
    forall i | 0 <= i < |callers| :: callers[i].at.New?
  }

  // ---- What every state keeps ----

  ghost predicate Inv(s: Slot) {
    && (s.holder.Some? ==> s.holder.value < |s.callers| && s.handle)
    && (forall i | 0 <= i < |s.callers| :: s.callers[i].at.Holding? <==> s.holder == Some(i))
    && (forall i | 0 <= i < |s.callers| :: s.callers[i].at.Holding? ==> s.callers[i].Pull?)
    && (forall k | 0 <= k < |s.queue| :: s.queue[k] < |s.callers| && s.callers[s.queue[k]].at.Queued?)
    && (forall i | 0 <= i < |s.callers| && s.callers[i].at.Queued? :: i in s.queue)
    && Distinct(s.queue)
    && (forall i | 0 <= i < |s.callers| :: s.callers[i].Close? && !s.callers[i].at.New? ==> s.cancelled)
    && (forall i | 0 <= i < |s.callers| :: s.callers[i].Close? && s.callers[i].at.Finished? ==> !s.handle)
    && s.drops == (if s.handle then 0 else 1)
    && (!s.handle ==> s.cancelled)
  }

  ghost predicate Distinct(queue: seq<nat>) {
    forall j, k | 0 <= j < k < |queue| :: queue[j] != queue[k]
  }

  lemma {:induction false} WithoutOf(queue: seq<nat>, who: nat)
    requires Distinct(queue)
    ensures Distinct(Without(queue, who)) && who !in Without(queue, who)
    ensures forall x | x != who :: x in Without(queue, who) <==> x in queue
  {
    if queue != [] && queue[0] != who {
      WithoutOf(queue[1..], who);
      var rest := Without(queue[1..], who);
      assert queue == [queue[0]] + queue[1..];
      assert queue[0] !in queue[1..];
      assert queue[0] !in rest;
    } else if queue != [] {
      assert queue == [queue[0]] + queue[1..];
    }
  }

  lemma {:induction false} BeginKeeps(s: Slot, who: nat)
    requires Inv(s) && Enabled(s, Begin(who))
    ensures Inv(Apply(s, Begin(who)))
  {
  }

  lemma {:induction false} LineKeeps(s: Slot, who: nat)
    requires Inv(s) && Enabled(s, Line(who))
    ensures Inv(Apply(s, Line(who)))
  {
    var s' := Apply(s, Line(who));
    assert who !in s.queue;
    forall i | 0 <= i < |s'.callers| && s'.callers[i].at.Queued? ensures i in s'.queue {
      if i != who {
        assert s.callers[i].at.Queued?;
      }
    }
  }

  /** Whoever else is in line stays in line. */
  lemma {:induction false} LineMovesUp(s: Slot, s': Slot)
    requires Inv(s) && Enabled(s, Grant) && s'.queue == s.queue[1..] && |s'.callers| == |s.callers|
    requires forall i | 0 <= i < |s.callers| && i != s.queue[0] :: s'.callers[i] == s.callers[i]
    requires !s'.callers[s.queue[0]].at.Queued?
    ensures Distinct(s'.queue)
    ensures forall k | 0 <= k < |s'.queue| :: s'.queue[k] < |s'.callers| && s'.callers[s'.queue[k]].at.Queued?
    ensures forall i | 0 <= i < |s'.callers| && s'.callers[i].at.Queued? :: i in s'.queue
  {
    var who := s.queue[0];
    assert s.queue == [who] + s.queue[1..];
    forall k | 0 <= k < |s'.queue| ensures s'.queue[k] < |s'.callers| && s'.callers[s'.queue[k]].at.Queued? {
      assert s'.queue[k] == s.queue[k + 1] != who;
    }
    forall i | 0 <= i < |s'.callers| && s'.callers[i].at.Queued? ensures i in s'.queue {
      assert i != who && s.callers[i].at.Queued?;
    }
  }

  lemma {:induction false} GrantCloseKeeps(s: Slot)
    requires Inv(s) && Enabled(s, Grant) && s.callers[s.queue[0]].Close?
    ensures Inv(Apply(s, Grant))
  {
    LineMovesUp(s, Apply(s, Grant));
  }

  lemma {:induction false} GrantOtherKeeps(s: Slot)
    requires Inv(s) && Enabled(s, Grant) && !s.callers[s.queue[0]].Close?
    ensures Inv(Apply(s, Grant))
  {
    LineMovesUp(s, Apply(s, Grant));
  }

  lemma {:induction false} GrantKeeps(s: Slot)
    requires Inv(s) && Enabled(s, Grant)
    ensures Inv(Apply(s, Grant))
  {
    if s.callers[s.queue[0]].Close? {
      GrantCloseKeeps(s);
    } else {
      GrantOtherKeeps(s);
    }
  }

  lemma {:induction false} LeaveKeeps(s: Slot, who: nat, step: Step)
    requires Inv(s) && Enabled(s, step) && (step == Arrive(who) || step == Interrupt(who))
    ensures Inv(Apply(s, step))
  {
  }

  lemma {:induction false} AbandonKeeps(s: Slot, who: nat)
    requires Inv(s) && Enabled(s, Abandon(who))
    ensures Inv(Apply(s, Abandon(who)))
  {
    var s' := Apply(s, Abandon(who));
    WithoutOf(s.queue, who);
    forall k | 0 <= k < |s'.queue| ensures s'.queue[k] < |s'.callers| && s'.callers[s'.queue[k]].at.Queued? {
      assert s'.queue[k] in s.queue;
    }
  }

  lemma {:induction false} StepKeeps(s: Slot, step: Step)
    requires Inv(s) && Enabled(s, step)
    ensures Inv(Apply(s, step))
  {
    match step
    case Begin(who) => BeginKeeps(s, who);
    case Line(who) => LineKeeps(s, who);
    case Grant => GrantKeeps(s);
    case Arrive(who) => LeaveKeeps(s, who, step);
    case Interrupt(who) => LeaveKeeps(s, who, step);
    case Abandon(who) => AbandonKeeps(s, who);
  }

  lemma {:induction false} RunKeeps(s: Slot, steps: seq<Step>, states: seq<Slot>, k: nat)
    requires Inv(s) && Runs(s, steps, states) && k <= |steps|
    ensures Inv(states[k])
    decreases k
  {
    if k > 0 {
      RunKeeps(s, steps, states, k - 1);
      StepKeeps(states[k - 1], steps[k - 1]);
    }
  }

  // ---- Safety ----

  /** In every reachable state at most one pull is inside its wait, only while the handle is
      there, and the handle has been dropped at most once. */
  lemma {:induction false} OneHolder(callers: seq<Caller>, steps: seq<Step>, states: seq<Slot>, k: nat)
    requires AllNew(callers) && Runs(Start(callers), steps, states) && k <= |steps|
    ensures var s := states[k];
            && (forall i, j | 0 <= i < |s.callers| && 0 <= j < |s.callers|
                              && s.callers[i].at.Holding? && s.callers[j].at.Holding? :: i == j)
            && (forall i | 0 <= i < |s.callers| && s.callers[i].at.Holding? :: s.callers[i].Pull? && s.handle)
            && s.drops <= 1 && (s.handle <==> s.drops == 0)
  {
    RunKeeps(Start(callers), steps, states, k);
  }

  /** Some close has begun: told from the steps. */
  ghost predicate CloseBegan(callers: seq<Caller>, steps: seq<Step>, k: nat)
    requires k <= |steps|
  {
    exists j | 0 <= j < k :: steps[j].Begin? && steps[j].who < |callers| && callers[steps[j].who].Close?
  }

  /** Who is a pull, a close or a borrow stays one. */
  ghost predicate SameKinds(x: seq<Caller>, y: seq<Caller>) {
    && |x| == |y|
    && forall i | 0 <= i < |x| :: (x[i].Pull? <==> y[i].Pull?) && (x[i].Close? <==> y[i].Close?)
  }

  lemma {:induction false} StepCancels(s: Slot, step: Step)
    requires Enabled(s, step)
    ensures SameKinds(Apply(s, step).callers, s.callers)
    ensures Apply(s, step).cancelled <==> s.cancelled || (step.Begin? && s.callers[step.who].Close?)
  {
  }

  /** The token is cancelled exactly if a close has begun, and only a close drops the handle. */
  lemma {:induction false} CancelledIff(callers: seq<Caller>, steps: seq<Step>, states: seq<Slot>, k: nat)
    requires AllNew(callers) && Runs(Start(callers), steps, states) && k <= |steps|
    ensures SameKinds(states[k].callers, callers)
    ensures states[k].cancelled <==> CloseBegan(callers, steps, k)
    ensures !states[k].handle ==> CloseBegan(callers, steps, k)
    decreases k
  {
    RunKeeps(Start(callers), steps, states, k);
    if k > 0 {
      CancelledIff(callers, steps, states, k - 1);
      StepCancels(states[k - 1], steps[k - 1]);
    }
  }

  /** What no step undoes. */
  lemma {:induction false} StepIsMonotone(s: Slot, step: Step, i: nat)
    requires Inv(s) && Enabled(s, step) && i < |s.callers|
    ensures var s' := Apply(s, step);
            && |s'.callers| == |s.callers| && (s'.callers[i].Pull? <==> s.callers[i].Pull?)
            && (s.cancelled ==> s'.cancelled) && (!s.handle ==> !s'.handle) && s.drops <= s'.drops
            && (s.callers[i].at.Finished? ==> s'.callers[i] == s.callers[i])
            && (s.cancelled && s.callers[i] == Pull(New) ==> s'.callers[i] in {Pull(New), Pull(Finished(false))})
            && (!s.handle && s.callers[i].Pull? && !s.callers[i].at.Finished? ==>
                  !s'.callers[i].at.Holding? && s'.callers[i].at != Finished(true))
  {
  }

  /** The token is cancelled and pull `i` has not started, or came back with nothing. */
  predicate ComesBackEmpty(s: Slot, i: nat) {
    s.cancelled && i < |s.callers| && s.callers[i] in {Pull(New), Pull(Finished(false))}
  }

  lemma {:induction false} EmptyStaysEmpty(s: Slot, step: Step, i: nat)
    requires Inv(s) && Enabled(s, step) && ComesBackEmpty(s, i)
    ensures ComesBackEmpty(Apply(s, step), i)
  {
    StepIsMonotone(s, step, i);
  }

  /** A pull that starts once the token is cancelled comes back with nothing, in any run. */
  lemma {:induction false} LatePullGetsNothing(
    callers: seq<Caller>, steps: seq<Step>, states: seq<Slot>, j: nat, k: nat, i: nat)
    requires AllNew(callers) && Runs(Start(callers), steps, states) && j <= k <= |steps|
    requires i < |states[j].callers| && CloseBegan(callers, steps, j) && states[j].callers[i] == Pull(New)
    ensures ComesBackEmpty(states[k], i)
  {
    CancelledIff(callers, steps, states, j);
    EmptyFromHere(callers, steps, states, j, k, i);
  }

  lemma {:induction false} EmptyFromHere(
    callers: seq<Caller>, steps: seq<Step>, states: seq<Slot>, j: nat, k: nat, i: nat)
    requires AllNew(callers) && Runs(Start(callers), steps, states) && j <= k <= |steps|
    requires ComesBackEmpty(states[j], i)
    ensures ComesBackEmpty(states[k], i)
    decreases k
  {
    if j < k {
      EmptyFromHere(callers, steps, states, j, k - 1, i);
      RunKeeps(Start(callers), steps, states, k - 1);
      EmptyStaysEmpty(states[k - 1], steps[k - 1], i);
    }
  }

  /** The handle was dropped, once, and pull `i` is not inside its wait. */
  predicate Shut(s: Slot, i: nat) {
    !s.handle && s.drops == 1 && i < |s.callers| && s.callers[i].Pull? && !s.callers[i].at.Holding?
  }

  lemma {:induction false} ShutStays(s: Slot, step: Step, i: nat)
    requires Inv(s) && Enabled(s, step) && Shut(s, i)
    ensures var s' := Apply(s, step); Shut(s', i) && (s'.callers[i].at == Finished(true) ==> s.callers[i].at == Finished(true))
  {
    StepIsMonotone(s, step, i);
    StepKeeps(s, step);
  }

  lemma {:induction false} FinishedCloseShuts(s: Slot, c: nat, i: nat)
    requires Inv(s) && c < |s.callers| && s.callers[c].Close? && s.callers[c].at.Finished?
    requires i < |s.callers| && s.callers[i].Pull?
    ensures Shut(s, i)
  {
  }

  lemma {:induction false} ShutFromHere(s: Slot, steps: seq<Step>, states: seq<Slot>, j: nat, k: nat, i: nat)
    requires Inv(s) && Runs(s, steps, states) && j <= k <= |steps| && Shut(states[j], i)
    ensures Shut(states[k], i)
    ensures states[k].callers[i].at == Finished(true) ==> states[j].callers[i].at == Finished(true)
    decreases k
  {
    if j < k {
      ShutFromHere(s, steps, states, j, k - 1, i);
      RunKeeps(s, steps, states, k - 1);
      ShutStays(states[k - 1], steps[k - 1], i);
    }
  }

  /** Once a close has finished the handle is gone for good, having been dropped exactly once: no
      pull is inside its wait then or later, and none that was still on its way gets an item. */
  lemma {:induction false} ClosedIsFinal(
    callers: seq<Caller>, steps: seq<Step>, states: seq<Slot>, j: nat, k: nat, c: nat, i: nat)
    requires AllNew(callers) && Runs(Start(callers), steps, states) && j <= k <= |steps|
    requires c < |states[j].callers| && states[j].callers[c].Close? && states[j].callers[c].at.Finished?
    requires i < |states[j].callers| && states[j].callers[i].Pull?
    ensures Shut(states[k], i)
    ensures states[k].callers[i].at == Finished(true) ==> states[j].callers[i].at == Finished(true)
  {
    RunKeeps(Start(callers), steps, states, j);
    FinishedCloseShuts(states[j], c, i);
    ShutFromHere(Start(callers), steps, states, j, k, i);
  }

  // ---- Liveness: a close is never stuck behind a parked pull ----

  function Ahead(queue: seq<nat>, who: nat): (n: nat)
    ensures who in queue ==> n < |queue| && queue[n] == who
  {
    if queue == [] || queue[0] == who then 0
    else 1 + Ahead(queue[1..], who)
  }

  /** How many more moves of the lock it takes until close `c` has it. */
  function Distance(s: Slot, c: nat): nat
    requires c < |s.callers|
  {
    if s.callers[c].at.Finished? then 0
    else 1 + 2 * Ahead(s.queue, c) + if s.holder.Some? then 1 else 0
  }

  /** The moves of the lock, none of which waits for the pulled future. */
  predicate MovesLock(step: Step) {
    step.Grant? || step.Interrupt? || step.Arrive?
  }

  ghost predicate Waiting(s: Slot, c: nat) {
    Inv(s) && c < |s.callers| && s.callers[c] == Close(Queued)
  }

  /** No deadlock: with a close in line, the lock can move without any pulled future becoming
      ready, whoever holds it and however long the line is. */
  lemma {:induction false} LockCanMove(s: Slot, c: nat)
    requires Waiting(s, c)
    ensures s.holder.Some? ==> Enabled(s, Interrupt(s.holder.value))
    ensures s.holder.None? ==> Enabled(s, Grant)
  {
    assert c in s.queue;
  }

  lemma {:induction false} AheadInLonger(queue: seq<nat>, more: seq<nat>, who: nat)
    requires who in queue
    ensures Ahead(queue + more, who) == Ahead(queue, who)
  {
    if queue[0] != who {
      assert (queue + more)[1..] == queue[1..] + more;
      AheadInLonger(queue[1..], more, who);
    }
  }

  lemma {:induction false} AheadWithout(queue: seq<nat>, x: nat, who: nat)
    requires who in queue && x != who
    ensures Ahead(Without(queue, x), who) <= Ahead(queue, who)
  {
    if queue[0] == x {
    } else if queue[0] != who {
      AheadWithout(queue[1..], x, who);
      assert Without(queue, x)[1..] == Without(queue[1..], x);
    }
  }

  lemma {:induction false} GrantBringsCloser(s: Slot, c: nat)
    requires Waiting(s, c) && Enabled(s, Grant)
    ensures Closer(s, Grant, Apply(s, Grant), c)
  {
    assert c in s.queue;
    GrantKeeps(s);
    if s.queue[0] == c {
      OwnGrant(s, c);
    } else {
      GrantMovesUp(s, c);
    }
  }

  lemma {:induction false} OwnGrant(s: Slot, c: nat)
    requires Waiting(s, c) && Enabled(s, Grant) && s.queue[0] == c
    ensures Apply(s, Grant).callers == s.callers[c := Close(Finished(s.handle))]
    ensures Distance(s, c) == 1 && Distance(Apply(s, Grant), c) == 0
  {
  }

  lemma {:induction false} GrantMovesUp(s: Slot, c: nat)
    requires Waiting(s, c) && Enabled(s, Grant) && s.queue[0] != c && c in s.queue
    ensures var s' := Apply(s, Grant);
            |s'.callers| == |s.callers| && s'.callers[c] == s.callers[c] && Distance(s', c) < Distance(s, c)
  {
    assert Ahead(s.queue[1..], c) + 1 == Ahead(s.queue, c);
  }

  lemma {:induction false} OthersBringCloser(s: Slot, step: Step, c: nat)
    requires Waiting(s, c) && Enabled(s, step) && (step.Begin? || MovesLock(step)) && !step.Grant?
    ensures Closer(s, step, Apply(s, step), c)
  {
    StepKeeps(s, step);
  }

  /** Close `c` is still in line or done, no further back, and nearer if the lock moved. */
  ghost predicate Closer(s: Slot, step: Step, s': Slot, c: nat)
    requires Waiting(s, c)
  {
    && c < |s'.callers| && (Waiting(s', c) || s'.callers[c].at.Finished?)
    && Distance(s', c) <= Distance(s, c) - if MovesLock(step) then 1 else 0
  }

  /** No step pushes a waiting close back, and every move of the lock brings it closer. */
  lemma {:induction false} StepBringsCloser(s: Slot, step: Step, c: nat)
    requires Waiting(s, c) && Enabled(s, step)
    ensures Closer(s, step, Apply(s, step), c)
  {
    assert c in s.queue;
    match step
    case Line(who) =>
      LineKeeps(s, who);
      AheadInLonger(s.queue, [who], c);
    case Abandon(who) =>
      AbandonKeeps(s, who);
      AheadWithout(s.queue, who, c);
    case Grant => GrantBringsCloser(s, c);
    case _ => OthersBringCloser(s, step, c);
  }

  function LockMoves(steps: seq<Step>): nat {
    if steps == [] then 0
    else LockMoves(steps[..|steps| - 1]) + if MovesLock(steps[|steps| - 1]) then 1 else 0
  }

  /** So a close in line finishes within a number of lock moves fixed when it joined the line,
      whatever else pulls, closes and timeouts do in between. */
  lemma {:induction false} CloseFinishes(s: Slot, steps: seq<Step>, states: seq<Slot>, c: nat)
    requires Waiting(s, c) && Runs(s, steps, states)
    ensures var s' := states[|steps|];
            && c < |s'.callers| && (Waiting(s', c) || s'.callers[c].at.Finished?)
            && (s'.callers[c].at.Finished? || LockMoves(steps) + Distance(s', c) <= Distance(s, c))
    ensures LockMoves(steps) >= Distance(s, c) ==> states[|steps|].callers[c].at.Finished?
    decreases |steps|
  {
    if steps != [] {
      var n := |steps| - 1;
      assert Runs(s, steps[..n], states[..n + 1]);
      CloseFinishes(s, steps[..n], states[..n + 1], c);
      assert Enabled(states[n], steps[n]) && states[n + 1] == Apply(states[n], steps[n]);
      if Waiting(states[n], c) {
        StepBringsCloser(states[n], steps[n], c);
      } else {
        RunKeeps(s, steps, states, n);
        StepIsMonotone(states[n], steps[n], c);
      }
    }
  }

  // ---- A pull gets its item ----

  ghost predicate WasAbandoned(steps: seq<Step>, k: nat, i: nat)
    requires k <= |steps|
  {
    exists j | 0 <= j < k :: steps[j] == Abandon(i)
  }

  /** A step sends a pull away empty only if the token is cancelled, or by abandoning it. */
  lemma {:induction false} StepEmpties(s: Slot, step: Step, i: nat)
    requires Inv(s) && Enabled(s, step) && i < |s.callers| && s.callers[i].Pull?
    requires s.callers[i].at != Finished(false) && Apply(s, step).callers[i].at == Finished(false)
    ensures s.cancelled || step == Abandon(i)
  {
  }

  /** In every run a pull comes back with nothing only if the token was cancelled by then, or the
      pull was abandoned. */
  lemma {:induction false} EmptyOnlyIf(callers: seq<Caller>, steps: seq<Step>, states: seq<Slot>, k: nat, i: nat)
    requires AllNew(callers) && Runs(Start(callers), steps, states) && k <= |steps|
    requires i < |states[k].callers| && states[k].callers[i] == Pull(Finished(false))
    ensures CloseBegan(callers, steps, k) || WasAbandoned(steps, k, i)
  {
    CancelledIff(callers, steps, states, k);
    EmptyIfCancelled(callers, steps, states, k, i);
  }

  lemma {:induction false} EmptyIfCancelled(callers: seq<Caller>, steps: seq<Step>, states: seq<Slot>, k: nat, i: nat)
    requires AllNew(callers) && Runs(Start(callers), steps, states) && k <= |steps|
    requires i < |states[k].callers| && states[k].callers[i] == Pull(Finished(false))
    ensures states[k].cancelled || WasAbandoned(steps, k, i)
    decreases k
  {
    if k > 0 {
      RunKeeps(Start(callers), steps, states, k - 1);
      EmptyBefore(states[k - 1], steps[k - 1], i);
      if states[k - 1].callers[i] == Pull(Finished(false)) {
        EmptyIfCancelled(callers, steps, states, k - 1, i);
      }
    }
  }

  lemma {:induction false} EmptyBefore(s: Slot, step: Step, i: nat)
    requires Inv(s) && Enabled(s, step)
    requires i < |Apply(s, step).callers| && Apply(s, step).callers[i] == Pull(Finished(false))
    ensures i < |s.callers| && (s.cancelled ==> Apply(s, step).cancelled)
    ensures s.callers[i] == Pull(Finished(false)) || s.cancelled || step == Abandon(i)
  {
    StepCancels(s, step);
    if s.callers[i].at != Finished(false) {
      StepEmpties(s, step, i);
    }
  }

  /** A borrow fails only once a close has begun. */
  lemma {:induction false} BorrowFailsOnlyIf(callers: seq<Caller>, steps: seq<Step>, states: seq<Slot>, k: nat, i: nat)
    requires AllNew(callers) && Runs(Start(callers), steps, states) && k <= |steps|
    requires i < |states[k].callers| && states[k].callers[i] == With(Finished(false))
    ensures CloseBegan(callers, steps, k)
    decreases k
  {
    if k > 0 {
      RunKeeps(Start(callers), steps, states, k - 1);
      CancelledIff(callers, steps, states, k - 1);
      StepCancels(states[k - 1], steps[k - 1]);
      if states[k - 1].callers[i].at == Finished(false) {
        BorrowFailsOnlyIf(callers, steps, states, k - 1, i);
      } else {
        BorrowStep(states[k - 1], steps[k - 1], i);
      }
    }
  }

  lemma {:induction false} BorrowStep(s: Slot, step: Step, i: nat)
    requires Inv(s) && Enabled(s, step) && i < |s.callers| && s.callers[i].With?
    requires s.callers[i].at != Finished(false) && Apply(s, step).callers[i].at == Finished(false)
    ensures !s.handle
  {
  }

  lemma SameCallers(s: Slot, step: Step)
    requires Enabled(s, step)
    ensures |Apply(s, step).callers| == |s.callers|
  {
  }

  /** The step that brings pull `i` on, while nothing is cancelled. */
  function Onward(s: Slot, i: nat): Step
    requires i < |s.callers|
  {
    match s.callers[i].at
    case New => Begin(i)
    case Checked => Line(i)
    case _ => if s.holder.Some? then Arrive(s.holder.value) else Grant
  }

  /** How many such steps are left at most. */
  function ToGo(s: Slot, i: nat): nat
    requires i < |s.callers|
  {
    match s.callers[i].at
    case New => 2 * |s.callers| + 5
    case Checked => 2 * |s.callers| + 4
    case Queued => 2 * Ahead(s.queue, i) + 2 + if s.holder.Some? then 1 else 0
    case Holding => 1
    case Finished(_) => 0
  }

  ghost predicate OnItsWay(s: Slot, i: nat) {
    && Inv(s) && !s.cancelled && |s.queue| <= |s.callers|
    && i < |s.callers| && s.callers[i].Pull? && !s.callers[i].at.Finished?
  }

  lemma {:induction false} OnwardOfLine(s: Slot, i: nat)
    requires OnItsWay(s, i) && s.callers[i].at.Queued?
    ensures var step := Onward(s, i);
            && Enabled(s, step) && Inv(Apply(s, step)) && !Apply(s, step).cancelled && |Apply(s, step).queue| <= |s.callers|
            && var s' := Apply(s, step);
               i < |s'.callers| && s'.callers[i].Pull? && s'.callers[i].at in {Queued, Holding} && ToGo(s', i) < ToGo(s, i)
  {
    assert i in s.queue;
    StepKeeps(s, Onward(s, i));
    if s.holder.None? && s.queue[0] != i {
      assert Ahead(s.queue[1..], i) + 1 == Ahead(s.queue, i);
      assert !s.callers[s.queue[0]].Close?;
    }
  }

  /** A line is no longer than the callers there are. */
  lemma {:induction false} LineFits(queue: seq<nat>, n: nat)
    requires Distinct(queue) && forall k | 0 <= k < |queue| :: queue[k] < n
    ensures |queue| <= n
    decreases n
  {
    assert queue == [] || queue[0] < n;
    if n == 0 {
    } else if k :| 0 <= k < |queue| && queue[k] == n - 1 {
      var rest := queue[..k] + queue[k + 1..];
      forall j | 0 <= j < |rest| ensures rest[j] < n - 1 {
        assert rest[j] == queue[if j < k then j else j + 1];
      }
      assert Distinct(rest);
      LineFits(rest, n - 1);
    } else {
      LineFits(queue, n - 1);
    }
  }

  lemma {:induction false} AheadBound(queue: seq<nat>, who: nat)
    requires who in queue
    ensures Ahead(queue, who) < |queue|
  {
  }

  ghost predicate Nearer(s: Slot, step: Step, i: nat)
    requires i < |s.callers|
  {
    && Enabled(s, step)
    && var s' := Apply(s, step);
       && Inv(s') && i < |s'.callers| && s'.callers[i].Pull? && ToGo(s', i) < ToGo(s, i)
       && (OnItsWay(s', i) || s'.callers[i].at == Finished(true))
  }

  lemma {:induction false} BeginIsNearer(s: Slot, i: nat)
    requires OnItsWay(s, i) && s.callers[i].at.New?
    ensures Nearer(s, Begin(i), i)
  {
    BeginKeeps(s, i);
  }

  lemma {:induction false} LineIsNearer(s: Slot, i: nat)
    requires OnItsWay(s, i) && s.callers[i].at.Checked?
    ensures Nearer(s, Line(i), i)
  {
    LineKeeps(s, i);
    var s' := Apply(s, Line(i));
    LineFits(s'.queue, |s'.callers|);
    assert s'.queue[|s.queue|] == i;
    AheadBound(s'.queue, i);
  }

  lemma {:induction false} LineMoveIsNearer(s: Slot, i: nat)
    requires OnItsWay(s, i) && s.callers[i].at.Queued?
    ensures Nearer(s, Onward(s, i), i)
  {
    OnwardOfLine(s, i);
    SameCallers(s, Onward(s, i));
  }

  lemma {:induction false} ItemIsNearer(s: Slot, i: nat)
    requires OnItsWay(s, i) && s.callers[i].at.Holding?
    ensures Nearer(s, Onward(s, i), i)
  {
    LeaveKeeps(s, i, Arrive(i));
  }

  lemma {:induction false} OnwardIsCloser(s: Slot, i: nat)
    requires OnItsWay(s, i)
    ensures Nearer(s, Onward(s, i), i)
  {
    match s.callers[i].at
    case New => BeginIsNearer(s, i);
    case Checked => LineIsNearer(s, i);
    case Queued => LineMoveIsNearer(s, i);
    case Holding => ItemIsNearer(s, i);
  }

  /** Without a cancellation every pull under way can be brought to its item, as soon as the pulled
      futures in front of it and its own are ready: no other caller need do anything. */
  lemma {:induction false} PullGetsItem(s: Slot, i: nat) returns (steps: seq<Step>, states: seq<Slot>)
    requires OnItsWay(s, i)
    ensures Runs(s, steps, states) && i < |states[|steps|].callers|
    ensures states[|steps|].callers[i] == Pull(Finished(true))
    ensures forall k | 0 <= k < |steps| :: steps[k] == Begin(i) || steps[k] == Line(i) || steps[k].Grant? || steps[k].Arrive?
    decreases ToGo(s, i)
  {
    var step := Onward(s, i);
    OnwardIsCloser(s, i);
    var s' := Apply(s, step);
    if s'.callers[i].at == Finished(true) {
      steps, states := [step], [s, s'];
    } else {
      var moreSteps, moreStates := PullGetsItem(s', i);
      steps, states := [step] + moreSteps, [s] + moreStates;
      RunsCons(s, step, moreSteps, moreStates);
    }
  }

  lemma {:induction false} RunsCons(s: Slot, step: Step, steps: seq<Step>, states: seq<Slot>)
    requires Enabled(s, step) && Runs(Apply(s, step), steps, states)
    ensures Runs(s, [step] + steps, [s] + states)
  {
    var steps', states' := [step] + steps, [s] + states;
    forall k | 0 <= k < |steps'| ensures Enabled(states'[k], steps'[k]) && states'[k + 1] == Apply(states'[k], steps'[k]) {
      if k > 0 {
        assert Enabled(states[k - 1], steps[k - 1]) && states[k] == Apply(states[k - 1], steps[k - 1]);
      }
    }
  }

  /** So it is from every reachable state that is not cancelled. */
  lemma {:induction false} PullIsServed(callers: seq<Caller>, steps: seq<Step>, states: seq<Slot>, k: nat, i: nat)
    returns (more: seq<Step>, after: seq<Slot>)
    requires AllNew(callers) && Runs(Start(callers), steps, states) && k <= |steps| && !CloseBegan(callers, steps, k)
    requires i < |states[k].callers| && states[k].callers[i].Pull? && !states[k].callers[i].at.Finished?
    ensures Runs(states[k], more, after) && i < |after[|more|].callers|
    ensures after[|more|].callers[i] == Pull(Finished(true))
    ensures forall j | 0 <= j < |more| :: more[j] == Begin(i) || more[j] == Line(i) || more[j].Grant? || more[j].Arrive?
  {
    RunKeeps(Start(callers), steps, states, k);
    CancelledIff(callers, steps, states, k);
    LineFits(states[k].queue, |states[k].callers|);
    more, after := PullGetsItem(states[k], i);
  }
}
