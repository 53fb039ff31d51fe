/**
 `Context._put_many` (`python/repics/pva/__init__.py`) over `put_begin_many` and
 `put_commit_many` (`src/pva/client.rs`): a batch of puts is opened together, its values are
 built and then committed together; an entry whose circuit is lost in between is begun again
 until the deadline.

 What the servers and the clock do is given in advance: `world[i][p]` is what happens to
 entry `i` in pass `p`, if it is still pending then.
 */
module PutMany {
  import opened Common

  datatype Began = Opened | BeginFails(e: int)

  /** The value to commit: assigning into it may raise, it may be a view of a sub-structure, and
      it may have no marked leaf. */
  datatype Built = AssignRaises | NotRoot | Unmarked | Marked

  datatype Committed = Accepted | Lost | CommitFails(e: int)

  /** `seen` is what the opened put reports: the type, and the current value if it was read. */
  datatype Try = Try(begin: Began, seen: nat, build: Built, commit: Committed, now: int)

  /** An entry's place in the result list; `Outcome(Lost)` is its PvaDisconnected. */
  datatype Result = Unset | BeginError(e: int) | Outcome(c: Committed)

  datatype Stage = AtBegin | AtAssign | AtCommitCall | AtCommit

  /** Why a call fails before anything is opened. */
  datatype Refusal = OptionsClash | RequestMissing | NameRefused | RequestRefused

  datatype Ending =
    | Refused(why: Refusal)
    | Returned(results: seq<Result>)
    | Raised(pass: nat, who: nat, stage: Stage)
    | StillPending(pending: seq<nat>)

  predicate InTime(deadline: Option<int>, now: int) {
    deadline.None? || now < deadline.value
  }

  // ---- One entry on its own ----

  /** What one try makes of a pending entry; `Unset` leaves it pending. */
  function Attempt(t: Try, deadline: Option<int>): Result {
    if t.begin.BeginFails? then BeginError(t.begin.e)
    else if t.commit.Lost? && InTime(deadline, t.now) then Unset
    else Outcome(t.commit)
  }

  /** An entry put by itself: the first try that decides it. */
  function Alone(tries: seq<Try>, deadline: Option<int>): Result {
    if tries == [] then Unset
    else
      var before := Alone(tries[..|tries| - 1], deadline);
      if before.Unset? then Attempt(tries[|tries| - 1], deadline) else before
  }

  /** A decided entry is never opened again: later tries do not count. */
  lemma {:induction false} SettledStays(tries: seq<Try>, deadline: Option<int>, p: nat)
    requires p <= |tries| && !Alone(tries[..p], deadline).Unset?
    ensures Alone(tries, deadline) == Alone(tries[..p], deadline)
    decreases |tries|
  {
    if p < |tries| {
      assert tries[..|tries| - 1][..p] == tries[..p];
      SettledStays(tries[..|tries| - 1], deadline, p);
    } else {
      assert tries[..p] == tries;
    }
  }

  /** An entry stays pending exactly as long as every try opens it and then loses its circuit
      before the deadline. */
  lemma {:induction false} PendingIff(tries: seq<Try>, deadline: Option<int>)
    ensures Alone(tries, deadline).Unset?
      <==> forall p | 0 <= p < |tries| :: tries[p].begin.Opened? && tries[p].commit.Lost? && InTime(deadline, tries[p].now)
    decreases |tries|
  {
    if tries != [] {
      PendingIff(tries[..|tries| - 1], deadline);
    }
  }

  /** The result is what the entry's own last try gave: its begin's error, or its commit's. */
  lemma {:induction false} LastTryDecides(tries: seq<Try>, deadline: Option<int>) returns (p: nat)
    requires !Alone(tries, deadline).Unset?
    ensures p < |tries| && Alone(tries[..p], deadline).Unset?
    ensures match tries[p].begin
            case BeginFails(e) => Alone(tries, deadline) == BeginError(e)
            case Opened =>
              && Alone(tries, deadline) == Outcome(tries[p].commit)
              && (tries[p].commit.Lost? ==> deadline.Some? && deadline.value <= tries[p].now)
    ensures forall q | 0 <= q < p ::
              && tries[q].begin.Opened? && tries[q].commit.Lost?
              && (deadline.Some? ==> tries[q].now < deadline.value)
    decreases |tries|
  {
    var n := |tries| - 1;
    if Alone(tries[..n], deadline).Unset? {
      p := n;
      PendingIff(tries[..n], deadline);
      assert forall q | 0 <= q < n :: tries[..n][q] == tries[q];
    } else {
      p := LastTryDecides(tries[..n], deadline);
      assert tries[..n][..p] == tries[..p];
    }
  }

  /** A commit's disconnection is reported only once the deadline has passed; without a timeout
      it never is. */
  lemma {:induction false} DisconnectedOnlyLate(tries: seq<Try>, deadline: Option<int>)
    requires Alone(tries, deadline) == Outcome(Lost)
    ensures deadline.Some? && exists p | 0 <= p < |tries| :: tries[p].commit.Lost? && deadline.value <= tries[p].now
  {
    var p := LastTryDecides(tries, deadline);
    assert tries[p].commit.Lost?;
  }

  /** A clock that reaches the deadline ends it: nothing is pending after such a pass. */
  lemma {:induction false} EndsByDeadline(tries: seq<Try>, deadline: int, p: nat)
    requires p < |tries| && deadline <= tries[p].now
    ensures !Alone(tries, Some(deadline)).Unset?
  {
    PendingIff(tries, Some(deadline));
  }

  // ---- The batch ----

  predicate Pending(world: seq<seq<Try>>, deadline: Option<int>, p: nat, i: nat) {
    i < |world| && p <= |world[i]| && Alone(world[i][..p], deadline).Unset?
  }

  /** The batch is opened, but this value cannot be put. */
  predicate Spoils(t: Try) {
    t.begin.Opened? && !t.build.Marked?
  }

  predicate Fails(t: Try, deadline: Option<int>) {
    !Attempt(t, deadline).Unset? && Attempt(t, deadline) != Outcome(Accepted)
  }

  /** Entry `i` makes the call raise in pass `p`. */
  predicate Stops(world: seq<seq<Try>>, deadline: Option<int>, throw: bool, p: nat, i: nat) {
    && Pending(world, deadline, p, i) && p < |world[i]|
    && (Spoils(world[i][p]) || (throw && Fails(world[i][p], deadline)))
  }

  ghost predicate Stopped(world: seq<seq<Try>>, deadline: Option<int>, throw: bool) {
    exists p: nat, i: nat :: Stops(world, deadline, throw, p, i)
  }

  predicate Blamed(t: Try, deadline: Option<int>, throw: bool, stage: Stage) {
    match stage
    case AtBegin => throw && t.begin.BeginFails?
    case AtAssign => t.begin.Opened? && t.build.AssignRaises?
    case AtCommitCall => t.begin.Opened? && (t.build.NotRoot? || t.build.Unmarked?)
    case AtCommit => throw && t.begin.Opened? && Fails(t, deadline)
  }

  predicate Increasing(s: seq<nat>) {
    forall j, k | 0 <= j < k < |s| :: s[j] < s[k]
  }

  lemma {:induction false} IncreasingGrows(s: seq<nat>, k: nat, kept: seq<nat>)
    requires Increasing(s) && k < |s| && Increasing(kept) && forall x | x in kept :: x in s[..k]
    ensures Increasing(kept + [s[k]]) && s[k] !in s[..k] && s[..k + 1] == s[..k] + [s[k]]
  {
    forall j | 0 <= j < |kept| ensures kept[j] < s[k] {
      assert kept[j] in s[..k];
    }
  }

  predicate EntriesOf(world: seq<seq<Try>>, ids: seq<nat>) {
    forall k | 0 <= k < |ids| :: ids[k] < |world|
  }

  /** What happens to entry `i` in pass `p`. */
  function At(world: seq<seq<Try>>, p: nat, i: nat): Try {
    if i < |world| && p < |world[i]| then world[i][p] else Try(Opened, 0, Marked, Accepted, 0)
  }

  // ---- What the caller passes ----

  datatype Name = Text | NotText

  /** No request, one passed by the caller (which need not be a pvRequest string that parses), or one
      made up from `process=` and `wait=`. */
  datatype Request = NoRequest | Passed(parses: bool) | Made(block: bool, process: Process)

  /** `process=`: left out, true, false, or anything else. */
  datatype Process = Passive | Always | Never | Unknown

  /** The request list need not be as long as the name list. */
  datatype Call = Call(names: seq<Name>, requests: seq<Request>, process: Process, wait: Option<bool>)

  /** `put_request`: with `process=` or `wait=` given a request is made up, and none may be passed. */
  function PutRequest(call: Call, r: Request): Option<Request> {
    if call.process.Passive? && call.wait.None? then Some(r)
    else if !r.NoRequest? || call.process.Unknown? then None
    else Some(Made(call.wait == Some(true), call.process))
  }

  /** Refused is a request beside `process=` or `wait=`, and a `process=` that is none of its values.
      With neither option the request is passed on as it is; else it blocks exactly on `wait=True`, and
      processes as asked, passively unless asked. */
  lemma {:induction false} RequestRefusedIff(call: Call, r: Request)
    ensures var asked := call.process != Passive || call.wait != None;
            match PutRequest(call, r)
            case None => asked && (r != NoRequest || call.process == Unknown)
            case Some(sent) =>
              if asked then
                && r == NoRequest && sent.Made? && sent.process == call.process != Unknown
                && (sent.block <==> call.wait == Some(true))
              else sent == r
  {
  }

  predicate OptionsOk(call: Call) {
    forall k | 0 <= k < |call.requests| :: PutRequest(call, call.requests[k]).Some?
  }

  /** `put_begin_many` gets as far as opening entry `i`. */
  predicate Begins(names: seq<Name>, reqs: seq<Request>, i: nat) {
    i < |names| && i < |reqs| && names[i].Text? && reqs[i] != Passed(false)
  }

  predicate AllBegin(names: seq<Name>, reqs: seq<Request>) {
    forall i | 0 <= i < |names| :: Begins(names, reqs, i)
  }

  predicate EntryOk(call: Call, i: nat) {
    && i < |call.names| && i < |call.requests| && call.names[i].Text?
    && PutRequest(call, call.requests[i]) != Some(Passed(false))
  }

  /** No entry's name or request is refused, nor the options. */
  predicate CallOk(call: Call) {
    OptionsOk(call) && forall i | 0 <= i < |call.names| :: EntryOk(call, i)
  }

  method PutRequests(call: Call) returns (reqs: seq<Request>, ok: bool)
    ensures ok <==> OptionsOk(call)
    ensures ok ==> |reqs| == |call.requests|
                   && forall k | 0 <= k < |reqs| :: PutRequest(call, call.requests[k]) == Some(reqs[k])
  {
    reqs := [];
    var k := 0;
    while k < |call.requests|
      invariant k <= |call.requests| && |reqs| == k
      invariant forall j | 0 <= j < k :: PutRequest(call, call.requests[j]) == Some(reqs[j])
    {
      var r := PutRequest(call, call.requests[k]);
      if r.None? {
        return [], false;
      }
      reqs := reqs + [r.value];
      k := k + 1;
    }
    return reqs, true;
  }

  /** What comes before the first entry is opened: the lists are made, the names converted and the
      requests parsed, all of them before anything is sent. */
  method BeginCall(names: seq<Name>, reqs: seq<Request>, pending: seq<nat>) returns (bad: Option<Refusal>)
    requires forall k | 0 <= k < |pending| :: pending[k] < |names|
    ensures bad.None? <==> forall k | 0 <= k < |pending| :: Begins(names, reqs, pending[k])
    ensures bad.Some? && bad.value.RequestMissing? ==> exists k | 0 <= k < |pending| :: pending[k] >= |reqs|
    ensures bad.Some? && bad.value.NameRefused? ==> exists k | 0 <= k < |pending| :: names[pending[k]].NotText?
    ensures bad.Some? && bad.value.RequestRefused? ==>
              exists k | 0 <= k < |pending| :: pending[k] < |reqs| && reqs[pending[k]] == Passed(false)
    ensures bad.Some? ==> !bad.value.OptionsClash?
  {
    var k := 0;
    while k < |pending|
      invariant k <= |pending| && forall j | 0 <= j < k :: pending[j] < |reqs|
    {
      if pending[k] >= |reqs| {
        return Some(RequestMissing);
      }
      k := k + 1;
    }
    k := 0;
    while k < |pending|
      invariant k <= |pending| && forall j | 0 <= j < k :: names[pending[j]].Text?
    {
      if names[pending[k]].NotText? {
        return Some(NameRefused);
      }
      k := k + 1;
    }
    k := 0;
    while k < |pending|
      invariant k <= |pending| && forall j | 0 <= j < k :: reqs[pending[j]] != Passed(false)
    {
      if reqs[pending[k]] == Passed(false) {
        return Some(RequestRefused);
      }
      k := k + 1;
    }
    bad := None;
  }

  /** Up to the commit: the errors of the begins, and the entries that are ready. */
  method OpenBatch(world: seq<seq<Try>>, p: nat, pending: seq<nat>, throw: bool, results: seq<Result>)
    returns (ready: seq<nat>, results': seq<Result>, bad: Option<(nat, Stage)>)
    requires |results| == |world| && Increasing(pending) && EntriesOf(world, pending)
    ensures |results'| == |results|
    ensures bad.None? ==> Increasing(ready)
    ensures bad.None? ==> forall i :: i in ready <==> i in pending && At(world, p, i).begin.Opened?
    ensures bad.None? ==> forall i | i in ready :: !At(world, p, i).build.AssignRaises?
    ensures bad.None? && throw ==> forall i | i in pending :: At(world, p, i).begin.Opened?
    ensures bad.None? ==> forall i | 0 <= i < |results| ::
              results'[i] == if i in pending && At(world, p, i).begin.BeginFails? then BeginError(At(world, p, i).begin.e)
                             else results[i]
    ensures bad.Some? ==> bad.value.0 in pending && bad.value.1 in {AtBegin, AtAssign}
                          && Blamed(At(world, p, bad.value.0), None, throw, bad.value.1)
  {
    ready, results', bad := [], results, None;
    var k := 0;
    while k < |pending|
      invariant k <= |pending| && |results'| == |results| && Increasing(ready)
      invariant forall i :: i in ready <==> i in pending[..k] && At(world, p, i).begin.Opened?
      invariant forall i | i in ready :: !At(world, p, i).build.AssignRaises?
      invariant throw ==> forall i | i in pending[..k] :: At(world, p, i).begin.Opened?
      invariant forall i | 0 <= i < |results| ::
          results'[i] == if i in pending[..k] && At(world, p, i).begin.BeginFails? then BeginError(At(world, p, i).begin.e)
                         else results[i]
    {
      var i := pending[k];
      var t := At(world, p, i);
      IncreasingGrows(pending, k, ready);
      assert pending[..k + 1] == pending[..k] + [i];
      if t.begin.BeginFails? {
        if throw {
          return ready, results', Some((i, AtBegin));
        }
        results' := results'[i := BeginError(t.begin.e)];
      } else if t.build.AssignRaises? {
        return ready, results', Some((i, AtAssign));
      } else {
        ready := ready + [i];
      }
      k := k + 1;
    }
    assert pending[..k] == pending;
  }

  /** `put_commit_many`: every value's marked leaves are looked up before any commit is sent; a view
      of a sub-structure, or a value without any, fails the call. */
  method CommitBatch(world: seq<seq<Try>>, p: nat, ready: seq<nat>)
    returns (accepted: set<nat>, bad: Option<nat>)
    ensures bad.Some? ==> accepted == {} && bad.value in ready && (At(world, p, bad.value).build.NotRoot? || At(world, p, bad.value).build.Unmarked?)
    ensures bad.None? ==> forall i | i in ready :: !At(world, p, i).build.NotRoot? && !At(world, p, i).build.Unmarked?
    ensures bad.None? ==> forall i :: i in accepted <==> i in ready && At(world, p, i).commit.Accepted?
  {
    accepted, bad := {}, None;
    var k := 0;
    while k < |ready|
      invariant k <= |ready|
      invariant forall i | i in ready[..k] :: !At(world, p, i).build.NotRoot? && !At(world, p, i).build.Unmarked?
    {
      assert ready[..k + 1] == ready[..k] + [ready[k]];
      if At(world, p, ready[k]).build.NotRoot? || At(world, p, ready[k]).build.Unmarked? {
        return {}, Some(ready[k]);
      }
      k := k + 1;
    }
    assert ready[..k] == ready;
    k := 0;
    while k < |ready|
      invariant k <= |ready|
      invariant forall i :: i in accepted <==> i in ready[..k] && At(world, p, i).commit.Accepted?
    {
      assert ready[..k + 1] == ready[..k] + [ready[k]];
      if At(world, p, ready[k]).commit.Accepted? {
        accepted := accepted + {ready[k]};
      }
      k := k + 1;
    }
    assert ready[..k] == ready;
  }

  /** The results of the commits: lost ones go round again while there is time. */
  method SettleBatch(
    world: seq<seq<Try>>, p: nat, ready: seq<nat>, deadline: Option<int>, throw: bool, results: seq<Result>)
    returns (pending: seq<nat>, results': seq<Result>, bad: Option<nat>)
    requires |results| == |world| && Increasing(ready) && EntriesOf(world, ready)
    requires forall i | i in ready :: At(world, p, i).begin.Opened?
    ensures |results'| == |results|
    ensures bad.None? ==> Increasing(pending)
    ensures bad.None? ==> forall i :: i in pending <==> i in ready && Attempt(At(world, p, i), deadline).Unset?
    ensures bad.None? && throw ==> forall i | i in ready :: !Fails(At(world, p, i), deadline)
    ensures bad.None? ==> forall i | 0 <= i < |results| ::
              results'[i] == if i in ready && i !in pending then Outcome(At(world, p, i).commit) else results[i]
    ensures bad.Some? ==> bad.value in ready && throw && Fails(At(world, p, bad.value), deadline)
  {
    pending, results', bad := [], results, None;
    var k := 0;
    while k < |ready|
      invariant k <= |ready| && |results'| == |results| && Increasing(pending)
      invariant forall i :: i in pending <==> i in ready[..k] && Attempt(At(world, p, i), deadline).Unset?
      invariant throw ==> forall i | i in ready[..k] :: !Fails(At(world, p, i), deadline)
      invariant forall i | 0 <= i < |results| ::
          results'[i] == if i in ready[..k] && i !in pending then Outcome(At(world, p, i).commit) else results[i]
    {
      var i := ready[k];
      var t := At(world, p, i);
      IncreasingGrows(ready, k, pending);
      assert ready[..k + 1] == ready[..k] + [i];
      if t.commit.Lost? && InTime(deadline, t.now) {
        pending := pending + [i];
      } else {
        if !t.commit.Accepted? && throw {
          return pending, results', Some(i);
        }
        results' := results'[i := Outcome(t.commit)];
      }
      k := k + 1;
    }
    assert ready[..k] == ready;
  }

  /** At the start of pass `p`: every entry is where it would be by itself, and was accepted by
      its server exactly if its result says so. */
  ghost predicate InStep(
    world: seq<seq<Try>>, deadline: Option<int>, p: nat, pending: seq<nat>, results: seq<Result>, accepted: multiset<nat>)
  {
    && Increasing(pending) && |results| == |world|
    && (forall i :: i in pending <==> Pending(world, deadline, p, i))
    && (forall i | 0 <= i < |world| :: p <= |world[i]| && results[i] == Alone(world[i][..p], deadline))
    && AcceptedBy(world, deadline, p, accepted)
  }

  ghost predicate AcceptedBy(world: seq<seq<Try>>, deadline: Option<int>, p: nat, accepted: multiset<nat>) {
    && (forall i | i in accepted :: i < |world|)
    && (forall i | 0 <= i < |world| ::
          p <= |world[i]| && accepted[i] == if Alone(world[i][..p], deadline) == Outcome(Accepted) then 1 else 0)
  }

  lemma {:induction false} OneMore(tries: seq<Try>, deadline: Option<int>, p: nat)
    requires p < |tries|
    ensures Alone(tries[..p + 1], deadline)
         == if Alone(tries[..p], deadline).Unset? then Attempt(tries[p], deadline) else Alone(tries[..p], deadline)
  {
    assert tries[..p + 1][..p] == tries[..p];
  }

  /** The commits of one pass, added to those before. */
  lemma {:induction false} AcceptedGrows(
    world: seq<seq<Try>>, deadline: Option<int>, p: nat, pending: seq<nat>, results: seq<Result>,
    before: multiset<nat>, ready: seq<nat>, now: set<nat>)
    requires InStep(world, deadline, p, pending, results, before)
    requires forall i | 0 <= i < |world| :: p < |world[i]|
    requires forall i :: i in ready <==> i in pending && At(world, p, i).begin.Opened?
    requires forall i :: i in now <==> i in ready && At(world, p, i).commit.Accepted?
    ensures AcceptedBy(world, deadline, p + 1, before + multiset(now))
  {
    var after := before + multiset(now);
    forall i | 0 <= i < |world|
      ensures p + 1 <= |world[i]|
           && after[i] == if Alone(world[i][..p + 1], deadline) == Outcome(Accepted) then 1 else 0
    {
      OneMore(world[i], deadline, p);
    }
  }

  /** One whole pass moves every entry by one try. */
  lemma {:induction false} PassKeepsStep(
    world: seq<seq<Try>>, deadline: Option<int>, p: nat, pending: seq<nat>, results: seq<Result>, opened': seq<Result>,
    ready: seq<nat>, pending': seq<nat>, results': seq<Result>, i: nat)
    requires |results| == |opened'| == |results'| == |world| && i < |world| && p < |world[i]|
    requires (i in pending <==> Pending(world, deadline, p, i))
    requires results[i] == Alone(world[i][..p], deadline)
    requires i in ready <==> i in pending && At(world, p, i).begin.Opened?
    requires opened'[i] == if i in pending && At(world, p, i).begin.BeginFails? then BeginError(At(world, p, i).begin.e) else results[i]
    requires i in pending' <==> i in ready && Attempt(At(world, p, i), deadline).Unset?
    requires results'[i] == if i in ready && i !in pending' then Outcome(At(world, p, i).commit) else opened'[i]
    ensures results'[i] == Alone(world[i][..p + 1], deadline)
    ensures i in pending' <==> Pending(world, deadline, p + 1, i)
  {
    OneMore(world[i], deadline, p);
  }

  lemma {:induction false} AllPendingAtFirst(world: seq<seq<Try>>, deadline: Option<int>, pending: seq<nat>)
    requires |pending| == |world| && forall i | 0 <= i < |pending| :: pending[i] == i
    ensures InStep(world, deadline, 0, pending, seq(|world|, _ => Unset), multiset{})
  {
    forall i: nat ensures i in pending <==> Pending(world, deadline, 0, i) {
      if i < |world| {
        assert pending[i] == i;
        assert world[i][..0] == [];
      }
    }
    assert forall i | 0 <= i < |world| :: world[i][..0] == [];
  }

  ghost predicate NoneStopsAt(world: seq<seq<Try>>, deadline: Option<int>, throw: bool, p: nat) {
    forall i: nat :: !Stops(world, deadline, throw, p, i)
  }

  /** The indices of the entries. */
  function Indices(n: nat): (s: seq<nat>)
    ensures |s| == n && forall i | 0 <= i < n :: s[i] == i
  {
    seq(n, i requires 0 <= i => i)
  }

  /** One turn of the loop. */
  method OnePass(
    world: seq<seq<Try>>, p: nat, deadline: Option<int>, throw: bool,
    pending: seq<nat>, results: seq<Result>, accepted: multiset<nat>)
    returns (pending': seq<nat>, results': seq<Result>, accepted': multiset<nat>, bad: Option<(nat, Stage)>)
    requires InStep(world, deadline, p, pending, results, accepted)
    requires forall i | 0 <= i < |world| :: p < |world[i]|
    ensures bad.None? ==>
              && InStep(world, deadline, p + 1, pending', results', accepted')
              && NoneStopsAt(world, deadline, throw, p)
    ensures bad.Some? ==>
              && Stops(world, deadline, throw, p, bad.value.0)
              && Blamed(world[bad.value.0][p], deadline, throw, bad.value.1)
              && AcceptedBy(world, deadline, if bad.value.1.AtCommit? then p + 1 else p, accepted')
  {
    assert EntriesOf(world, pending) by {
      forall k | 0 <= k < |pending| ensures pending[k] < |world| {
        assert pending[k] in pending;
      }
    }
    pending', results', accepted' := pending, results, accepted;
    var ready, opened', early := OpenBatch(world, p, pending, throw, results);
    if early.Some? {
      return pending', results', accepted', early;
    }
    var now, unmarked := CommitBatch(world, p, ready);
    if unmarked.Some? {
      return pending', results', accepted', Some((unmarked.value, AtCommitCall));
    }
    AcceptedGrows(world, deadline, p, pending, results, accepted, ready, now);
    accepted' := accepted + multiset(now);
    assert EntriesOf(world, ready) by {
      forall k | 0 <= k < |ready| ensures ready[k] < |world| {
        assert ready[k] in pending;
      }
    }
    var failed;
    pending', results', failed := SettleBatch(world, p, ready, deadline, throw, opened');
    if failed.Some? {
      return pending', results', accepted', Some((failed.value, AtCommit));
    }
    forall i | 0 <= i < |world|
      ensures results'[i] == Alone(world[i][..p + 1], deadline)
      ensures i in pending' <==> Pending(world, deadline, p + 1, i)
    {
      PassKeepsStep(world, deadline, p, pending, results, opened', ready, pending', results', i);
    }
    bad := None;
  }

  /** The call raises: before anything is opened, or when an entry stops it. */
  ghost predicate Raises(call: Call, world: seq<seq<Try>>, deadline: Option<int>, throw: bool) {
    !CallOk(call) || Stopped(world, deadline, throw)
  }

  /** The loop. The first pass opens every entry, so it is there that a refused name or request
      shows. */
  method RunPasses(
    names: seq<Name>, reqs: seq<Request>, world: seq<seq<Try>>, passes: nat, deadline: Option<int>, throw: bool)
    returns (ending: Ending, accepted: multiset<nat>)
    requires passes >= 1 && |names| == |world|
    requires forall i | 0 <= i < |world| :: |world[i]| == passes
    ensures ending.Refused? <==> !AllBegin(names, reqs)
    ensures !ending.Refused? ==> EndsAsAlone(world, passes, deadline, throw, ending)
    ensures Accounted(world, passes, deadline, ending, accepted)
  {
    var results, pending := seq(|world|, _ => Unset), Indices(|world|);
    accepted := multiset{};
    AllPendingAtFirst(world, deadline, pending);
    var p := 0;
    while p < passes && pending != []
      invariant p <= passes && InStep(world, deadline, p, pending, results, accepted)
      invariant p == 0 ==> accepted == multiset{} && |pending| == |world|
      invariant p > 0 ==> AllBegin(names, reqs)
      invariant NoneStopped(world, deadline, throw, p)
    {
      var refused := BeginPass(names, reqs, world, deadline, p, pending);
      if refused.Some? {
        return Refused(refused.value), accepted;
      }
      var bad;
      pending, results, accepted, bad := OnePass(world, p, deadline, throw, pending, results, accepted);
      if bad.Some? {
        RaisedEnding(world, passes, deadline, throw, p, bad.value.0, bad.value.1, accepted);
        return Raised(p, bad.value.0, bad.value.1), accepted;
      }
      NoneStoppedGrows(world, deadline, throw, p);
      p := p + 1;
    }
    ending := if pending == [] then Returned(results) else StillPending(pending);
    QuietEnding(world, passes, deadline, throw, p, pending, results, accepted);
  }

  ghost predicate NoneStopped(world: seq<seq<Try>>, deadline: Option<int>, throw: bool, p: nat) {
    forall q: nat, i: nat | q < p :: !Stops(world, deadline, throw, q, i)
  }

  lemma {:induction false} NoneStoppedGrows(world: seq<seq<Try>>, deadline: Option<int>, throw: bool, p: nat)
    requires NoneStopped(world, deadline, throw, p) && NoneStopsAt(world, deadline, throw, p)
    ensures NoneStopped(world, deadline, throw, p + 1)
  {
  }

  lemma {:induction false} RaisedEnding(
    world: seq<seq<Try>>, passes: nat, deadline: Option<int>, throw: bool, p: nat, who: nat, stage: Stage, accepted: multiset<nat>)
    requires Stops(world, deadline, throw, p, who) && Blamed(world[who][p], deadline, throw, stage)
    requires AcceptedBy(world, deadline, if stage.AtCommit? then p + 1 else p, accepted)
    ensures EndsAsAlone(world, passes, deadline, throw, Raised(p, who, stage))
    ensures Accounted(world, passes, deadline, Raised(p, who, stage), accepted)
  {
  }

  /** `put_begin_many` of one pass. */
  method BeginPass(
    names: seq<Name>, reqs: seq<Request>, world: seq<seq<Try>>, deadline: Option<int>, p: nat, pending: seq<nat>)
    returns (refused: Option<Refusal>)
    requires |names| == |world| && forall i :: i in pending <==> Pending(world, deadline, p, i)
    ensures AllBegin(names, reqs) ==> refused.None?
    ensures p == 0 ==> (refused.None? <==> AllBegin(names, reqs))
    ensures refused.Some? ==> !refused.value.OptionsClash?
  {
    PendingAreEntries(world, deadline, p, pending);
    refused := BeginCall(names, reqs, pending);
    if p == 0 && refused.None? {
      forall i | 0 <= i < |names| ensures Begins(names, reqs, i) {
        assert world[i][..0] == [];
        assert Pending(world, deadline, 0, i) && i in pending;
      }
    }
  }

  /** A loop that ran out without anything raising. */
  lemma {:induction false} QuietEnding(
    world: seq<seq<Try>>, passes: nat, deadline: Option<int>, throw: bool, p: nat,
    pending: seq<nat>, results: seq<Result>, accepted: multiset<nat>)
    requires forall i | 0 <= i < |world| :: |world[i]| == passes
    requires p <= passes && InStep(world, deadline, p, pending, results, accepted) && (p == passes || pending == [])
    requires NoneStopped(world, deadline, throw, p)
    ensures var ending := if pending == [] then Returned(results) else StillPending(pending);
            EndsAsAlone(world, passes, deadline, throw, ending) && Accounted(world, passes, deadline, ending, accepted)
  {
    NeverStopped(world, passes, deadline, throw, p, pending);
    if pending == [] {
      NothingLeft(world, passes, deadline, p, results, accepted);
    }
  }

  /** How a call that is not refused ends: every result is the entry's own, whatever the others did;
      it raises exactly if some pending entry stops it. */
  ghost predicate EndsAsAlone(world: seq<seq<Try>>, passes: nat, deadline: Option<int>, throw: bool, ending: Ending) {
    && (ending.Returned? ==>
          && |ending.results| == |world|
          && forall i | 0 <= i < |world| ::
               ending.results[i] == Alone(world[i], deadline) && !ending.results[i].Unset?)
    && (ending.StillPending? ==>
          ending.pending != [] && forall i :: i in ending.pending <==> Pending(world, deadline, passes, i))
    && (ending.Raised? <==> Stopped(world, deadline, throw))
    && (ending.Raised? ==>
          && Pending(world, deadline, ending.pass, ending.who) && ending.pass < |world[ending.who]|
          && Blamed(world[ending.who][ending.pass], deadline, throw, ending.stage))
  }

  /** No entry is accepted twice; a pass stopped before its commits has sent none. */
  ghost predicate Accounted(world: seq<seq<Try>>, passes: nat, deadline: Option<int>, ending: Ending, accepted: multiset<nat>) {
    if ending.Refused? then accepted == multiset{}
    else
      AcceptedBy(world, deadline,
        if !ending.Raised? then passes else if ending.stage.AtCommit? then ending.pass + 1 else ending.pass, accepted)
  }

  method PutMany(call: Call, world: seq<seq<Try>>, passes: nat, deadline: Option<int>, throw: bool)
    returns (ending: Ending, accepted: multiset<nat>)
    requires passes >= 1 && |call.names| == |world|
    requires forall i | 0 <= i < |world| :: |world[i]| == passes
    ensures ending.Refused? <==> !CallOk(call)
    ensures ending.Refused? || ending.Raised? <==> Raises(call, world, deadline, throw)
    ensures !ending.Refused? ==> EndsAsAlone(world, passes, deadline, throw, ending)
    ensures Accounted(world, passes, deadline, ending, accepted)
  {
    var reqs, optionsOk := PutRequests(call);
    if !optionsOk {
      return Refused(OptionsClash), multiset{};
    }
    CallOkIff(call, reqs);
    ending, accepted := RunPasses(call.names, reqs, world, passes, deadline, throw);
  }

  lemma {:induction false} PendingAreEntries(world: seq<seq<Try>>, deadline: Option<int>, p: nat, pending: seq<nat>)
    requires forall i :: i in pending <==> Pending(world, deadline, p, i)
    ensures EntriesOf(world, pending)
  {
    forall k | 0 <= k < |pending| ensures pending[k] < |world| {
      assert pending[k] in pending;
    }
  }

  lemma {:induction false} CallOkIff(call: Call, reqs: seq<Request>)
    requires OptionsOk(call) && |reqs| == |call.requests|
    requires forall k | 0 <= k < |reqs| :: PutRequest(call, call.requests[k]) == Some(reqs[k])
    ensures CallOk(call) <==> AllBegin(call.names, reqs)
  {
    forall i | 0 <= i < |call.names| ensures EntryOk(call, i) <==> Begins(call.names, reqs, i) {
    }
  }

  lemma {:induction false} NothingLeft(
    world: seq<seq<Try>>, passes: nat, deadline: Option<int>, p: nat, results: seq<Result>, accepted: multiset<nat>)
    requires forall i | 0 <= i < |world| :: |world[i]| == passes
    requires p <= passes && InStep(world, deadline, p, [], results, accepted)
    ensures forall i | 0 <= i < |world| :: results[i] == Alone(world[i], deadline) && !results[i].Unset?
    ensures AcceptedBy(world, deadline, passes, accepted)
  {
    forall i | 0 <= i < |world|
      ensures results[i] == Alone(world[i], deadline) && !results[i].Unset?
      ensures world[i][..passes] == world[i]
    {
      assert !Pending(world, deadline, p, i);
      SettledStays(world[i], deadline, p);
    }
  }

  /** No entry stopped the passes that were made, and after them no pass is left or nothing is pending. */
  lemma {:induction false} NeverStopped(
    world: seq<seq<Try>>, passes: nat, deadline: Option<int>, throw: bool, p: nat, pending: seq<nat>)
    requires forall i | 0 <= i < |world| :: |world[i]| == passes
    requires p <= passes && forall i :: i in pending <==> Pending(world, deadline, p, i)
    requires forall q: nat, i: nat | q < p :: !Stops(world, deadline, throw, q, i)
    requires p == passes || pending == []
    ensures !Stopped(world, deadline, throw)
  {
    forall q: nat, i: nat | q >= p ensures !Stops(world, deadline, throw, q, i) {
      if Pending(world, deadline, q, i) && p < passes {
        assert !Pending(world, deadline, p, i);
        assert world[i][..q][..p] == world[i][..p];
        SettledStays(world[i][..q], deadline, p);
      }
    }
  }

  // ---- `throw=False` and a value that cannot be put ----

  /** What the caller gives for an entry: a Value, or an object to be assigned to what the put
      reports, in every pass anew, which may raise or else mark a leaf or none. */
  datatype Given = TheValue(isRoot: bool, hasMark: bool) | Plain(comesTo: nat -> Option<bool>)

  function BuiltFrom(g: Given, seen: nat): Built {
    match g
    case TheValue(isRoot, hasMark) => if !isRoot then NotRoot else if hasMark then Marked else Unmarked
    case Plain(comesTo) =>
      match comesTo(seen)
      case None => AssignRaises
      case Some(hasMark) => if hasMark then Marked else Unmarked
  }

  predicate WithGivens(world: seq<seq<Try>>, givens: seq<Given>) {
    && |world| == |givens|
    && forall i, p | 0 <= i < |world| && 0 <= p < |world[i]| ::
         world[i][p].build == BuiltFrom(givens[i], world[i][p].seen)
  }

  /** A root Value with a marked leaf, or an object that can be assigned, marking a leaf, to
      whatever the put may report. */
  ghost predicate AlwaysPuttable(g: Given) {
    match g
    case TheValue(isRoot, hasMark) => isRoot && hasMark
    case Plain(comesTo) => forall seen :: comesTo(seen) == Some(true)
  }

  /** The documentation says that with `throw=False` an entry that fails is its exception. It is
      not so for a value that cannot be put: the whole call raises, and an entry that its
      server would have accepted is not sent. */
  lemma {:induction false} OneValueStopsTheBatch(b: Built)
    requires !b.Marked?
    ensures var world := [[Try(Opened, 0, Marked, Accepted, 0)], [Try(Opened, 0, b, Accepted, 0)]];
            && Stops(world, None, false, 0, 1)
            && Alone(world[0], None) == Outcome(Accepted)
            && !AcceptedBy(world, None, 0, multiset{0})
  {
    var world := [[Try(Opened, 0, Marked, Accepted, 0)], [Try(Opened, 0, b, Accepted, 0)]];
    assert world[1][..0] == [];
    assert world[0][..0] == [];
    assert world[0][..1] == world[0];
    OneMore(world[0], None, 0);
  }

  /** With `throw=False` the documented behaviour holds, whatever the servers do, exactly for calls
      whose options, names and requests are accepted and whose every value can always be put. */
  lemma {:induction false} NeverRaisesIff(call: Call, givens: seq<Given>, deadline: Option<int>)
    requires |call.names| == |givens|
    ensures (CallOk(call) && forall i | 0 <= i < |givens| :: AlwaysPuttable(givens[i]))
      <==> (forall world :: WithGivens(world, givens) ==> !Raises(call, world, deadline, false))
  {
    if CallOk(call) && forall i | 0 <= i < |givens| :: AlwaysPuttable(givens[i]) {
      forall world | WithGivens(world, givens) ensures !Raises(call, world, deadline, false) {
        PuttableNeverStop(world, givens, deadline);
      }
    } else {
      var world := RaisingWorld(call, givens, deadline);
    }
  }

  lemma {:induction false} PuttableNeverStop(world: seq<seq<Try>>, givens: seq<Given>, deadline: Option<int>)
    requires WithGivens(world, givens) && forall i | 0 <= i < |givens| :: AlwaysPuttable(givens[i])
    ensures !Stopped(world, deadline, false)
  {
    forall p: nat, i: nat | i < |world| && p < |world[i]| ensures !Spoils(world[i][p]) {
      assert AlwaysPuttable(givens[i]);
    }
  }

  /** One that cannot always be put meets a server that makes the call raise. */
  lemma {:induction false} RaisingWorld(call: Call, givens: seq<Given>, deadline: Option<int>)
    returns (world: seq<seq<Try>>)
    requires |call.names| == |givens|
    requires !CallOk(call) || exists i | 0 <= i < |givens| :: !AlwaysPuttable(givens[i])
    ensures WithGivens(world, givens) && Raises(call, world, deadline, false)
  {
    if !CallOk(call) {
      world := seq(|givens|, _ => []);
    } else {
      var i :| 0 <= i < |givens| && !AlwaysPuttable(givens[i]);
      var seen := if givens[i].Plain? then SpoilingReport(givens[i]) else 0;
      world := seq(|givens|, j requires 0 <= j < |givens| => [Try(Opened, seen, BuiltFrom(givens[j], seen), Accepted, 0)]);
      assert world[i][..0] == [];
      assert Stops(world, deadline, false, 0, i);
    }
  }

  ghost function SpoilingReport(g: Given): (seen: nat)
    requires g.Plain? && !AlwaysPuttable(g)
    ensures g.comesTo(seen) != Some(true)
  {
    var seen :| g.comesTo(seen) != Some(true);
    seen
  }
}
