/**
 The served Channel Access PV of `src/ca_server.rs`: `CaPvEntry`, whose value lives in one
 place per phase, and the databases the entries register in.

 `open` and `post` on a served PV let go of the entry's lock before they set the cell, so
 another call may come in between. `Turn` is what happens under the lock; a cell it leaves
 to be set is `late`.
 */
module CaPv {
  import opened Common

  /** A name in one server's database. */
  datatype Key = Key(server: nat, name: string)

  datatype ValueState<C> = Closed | Detached(value: int) | Serving(pv: C)

  datatype Entry<C> = Entry(state: ValueState<C>, reg: Option<Key>)

  datatype Outcome = Done | NotOpen | InstallFails | AlreadyServed | NeverOpened

  datatype Turn<C> = Turn(entry: Entry<C>, db: map<Key, C>, outcome: Outcome, late: Option<(C, int)>)

  /** `cell` is the cell the library makes, or `None` if it fails for reasons of its own. */
  predicate Installs<C>(db: map<Key, C>, key: Key, cell: Option<C>) {
    key !in db && cell.Some?
  }

  function OpenTurn<C>(e: Entry<C>, db: map<Key, C>, v: int, cell: Option<C>): Turn<C> {
    if e.state.Serving? then Turn(e, db, Done, Some((e.state.pv, v)))
    else if e.reg.None? then Turn(e.(state := Detached(v)), db, Done, None)
    else if Installs(db, e.reg.value, cell) then
      Turn(e.(state := Serving(cell.value)), db[e.reg.value := cell.value], Done, None)
    else Turn(e, db, InstallFails, None)
  }

  function PostTurn<C>(e: Entry<C>, db: map<Key, C>, v: int): Turn<C> {
    match e.state
    case Closed => Turn(e, db, NotOpen, None)
    case Detached(_) => Turn(e.(state := Detached(v)), db, Done, None)
    case Serving(pv) => Turn(e, db, Done, Some((pv, v)))
  }

  function CloseTurn<C>(e: Entry<C>, db: map<Key, C>): Turn<C> {
    Turn(e.(state := Closed), if e.state.Serving? && e.reg.Some? then db - {e.reg.value} else db, Done, None)
  }

  function AdoptTurn<C>(e: Entry<C>, db: map<Key, C>, key: Key, cell: Option<C>): Turn<C> {
    match e.state
    case Closed => Turn(e, db, NeverOpened, None)
    case Serving(_) => Turn(e, db, AlreadyServed, None)
    case Detached(_) =>
      if Installs(db, key, cell) then Turn(Entry(Serving(cell.value), Some(key)), db[key := cell.value], Done, None)
      else Turn(e, db, InstallFails, None)
  }

  /** Where the value is: served under the registered name, or not registered at all. */
  predicate Fits<C(==)>(e: Entry<C>, db: map<Key, C>) {
    && (e.state.Serving? ==> e.reg.Some? && e.reg.value in db && db[e.reg.value] == e.state.pv)
    && (e.state.Detached? ==> e.reg.None?)
  }

  // ---- The objects ----

  class ProcessVariable {
    var value: int

    constructor (value: int)
      ensures this.value == value
    {
      this.value := value;
    }
  }

  /** The databases of all servers. */
  class PvDatabase {
    var pvs: map<Key, ProcessVariable>
  }

  class CaPvEntry {
    const db: PvDatabase
    var state: ValueState<ProcessVariable>
    var reg: Option<Key>

    function Held(): Entry<ProcessVariable>
      reads this
    {
      Entry(state, reg)
    }

    ghost predicate Valid()
      reads this, db
    {
      Fits(Held(), db.pvs)
    }

    function Cell(): set<ProcessVariable>
      reads this
    {
      if state.Serving? then {state.pv} else {}
    }

    /** `current`. */
    function Current(): Option<int>
      reads this, Cell()
    {
      match state
      case Serving(pv) => Some(pv.value)
      case Detached(v) => Some(v)
      case Closed => None
    }

    constructor (db: PvDatabase)
      ensures Valid() && this.db == db && Held() == Entry(Closed, None)
    {
      this.db := db;
      state, reg := Closed, None;
    }

    method Install(key: Key, value: int, fails: bool) returns (cell: Option<ProcessVariable>)
      modifies db
      ensures cell.Some? <==> !fails && key !in old(db.pvs)
      ensures cell.Some? ==> fresh(cell.value) && cell.value.value == value
      ensures db.pvs == if cell.Some? then old(db.pvs)[key := cell.value] else old(db.pvs)
    {
      if fails || key in db.pvs {
        return None;
      }
      var pv := new ProcessVariable(value);
      db.pvs := db.pvs[key := pv];
      return Some(pv);
    }

    method Open(v: int, fails: bool) returns (o: Outcome, ghost cell: Option<ProcessVariable>)
      requires Valid()
      modifies this`state, db, Cell()
      ensures Valid()
      ensures fails ==> cell.None?
      ensures var t := OpenTurn(old(Held()), old(db.pvs), v, cell);
              && Held() == t.entry && db.pvs == t.db && o == t.outcome
              && (t.late.Some? ==> t.late.value.0.value == t.late.value.1)
      ensures Current() == if o.Done? then Some(v) else old(Current())
      ensures o.InstallFails? <==>
                old(state).Closed? && old(reg).Some? && (fails || old(reg).value in old(db.pvs))
      ensures o.Done? || o.InstallFails?
    {
      o, cell := Done, None;
      if state.Serving? {
        state.pv.value := v;
      } else if reg.Some? {
        var pv := Install(reg.value, v, fails);
        cell := pv;
        if pv.None? {
          return InstallFails, cell;
        }
        state := Serving(pv.value);
      } else {
        state := Detached(v);
      }
    }

    method Post(v: int) returns (o: Outcome)
      requires Valid()
      modifies this`state, Cell()
      ensures Valid()
      ensures var t := PostTurn(old(Held()), db.pvs, v);
              Held() == t.entry && o == t.outcome && (t.late.Some? ==> t.late.value.0.value == t.late.value.1)
      ensures o == if old(Current()).Some? then Done else NotOpen
      ensures Current() == if o.Done? then Some(v) else None
    {
      match state
      case Serving(pv) =>
        pv.value := v;
        return Done;
      case Detached(_) =>
        state := Detached(v);
        return Done;
      case Closed => return NotOpen;
    }

    method Close()
      requires Valid()
      modifies this`state, db
      ensures Valid() && Current().None?
      ensures var t := CloseTurn(old(Held()), old(db.pvs)); Held() == t.entry && db.pvs == t.db
      ensures forall key :: key in db.pvs <==> key in old(db.pvs) && !(old(state).Serving? && old(reg) == Some(key))
    {
      if state.Serving? && reg.Some? {
        db.pvs := db.pvs - {reg.value};
      }
      state := Closed;
    }

    method Adopt(key: Key, fails: bool) returns (o: Outcome, ghost cell: Option<ProcessVariable>)
      requires Valid()
      modifies this, db
      ensures Valid()
      ensures fails ==> cell.None?
      ensures var t := AdoptTurn(old(Held()), old(db.pvs), key, cell); Held() == t.entry && db.pvs == t.db && o == t.outcome
      ensures Current() == old(Current())
      ensures o.Done? <==> old(state).Detached? && !fails && key !in old(db.pvs)
      ensures (o.NeverOpened? <==> old(state).Closed?) && (o.AlreadyServed? <==> old(state).Serving?)
      ensures !o.NotOpen?
    {
      cell := None;
      match state
      case Closed => return NeverOpened, cell;
      case Serving(_) => return AlreadyServed, cell;
      case Detached(v) =>
        var pv := Install(key, v, fails);
        cell := pv;
        if pv.None? {
          return InstallFails, cell;
        }
        reg := Some(key);
        state := Serving(pv.value);
        return Done, cell;
    }
  }

  // ---- Any number of entries, and calls that overlap ----

  /** A set of a cell that its call has not done yet; `closes` counts the closes of the entry
      before the call took its turn. */
  datatype Late = Late(who: nat, closes: nat, cell: nat, value: int)

  /** Cells are numbered as they are made; `cells[c]` is a cell's value. */
  datatype World = World(
    entries: seq<Entry<nat>>, closes: seq<nat>, db: map<Key, nat>, cells: seq<int>, late: seq<Late>)

  datatype Action = Open(v: int, fails: bool) | Post(v: int) | Close | Adopt(key: Key, fails: bool)

  /** A call takes its turn under its entry's lock, or the `k`th late set is done. */
  datatype Step = Take(who: nat, action: Action) | Set(k: nat)

  function Start(n: nat): World {
    World(seq(n, _ => Entry(Closed, None)), seq(n, _ => 0), map[], [], [])
  }

  predicate Enabled(w: World, step: Step) {
    && |w.closes| == |w.entries|
    && match step
       case Set(k) => k < |w.late| && w.late[k].cell < |w.cells|
       case Take(who, _) => who < |w.entries|
  }

  function TurnOf(w: World, who: nat, action: Action): Turn<nat>
    requires who < |w.entries|
  {
    var e := w.entries[who];
    match action
    case Open(v, fails) => OpenTurn<nat>(e, w.db, v, if fails then None else Some(|w.cells|))
    case Post(v) => PostTurn<nat>(e, w.db, v)
    case Close => CloseTurn<nat>(e, w.db)
    case Adopt(key, fails) => AdoptTurn<nat>(e, w.db, key, if fails then None else Some(|w.cells|))
  }

  /** The value a new cell of this entry starts with. */
  function Initial(e: Entry<nat>, action: Action): int {
    if action.Open? then action.v
    else if e.state.Detached? then e.state.value
    else 0
  }

  function AfterTurn(w: World, who: nat, action: Action): World
    requires Enabled(w, Take(who, action))
  {
    var t := TurnOf(w, who, action);
    var made := t.entry.state == Serving(|w.cells|);
    World(
      w.entries[who := t.entry],
      if action.Close? then w.closes[who := w.closes[who] + 1] else w.closes,
      t.db,
      if made then w.cells + [Initial(w.entries[who], action)] else w.cells,
      if t.late.Some? then w.late + [Late(who, w.closes[who], t.late.value.0, t.late.value.1)] else w.late)
  }

  function Apply(w: World, step: Step): World
    requires Enabled(w, step)
  {
    match step
    case Take(who, action) => AfterTurn(w, who, action)
    case Set(k) =>
      w.(cells := w.cells[w.late[k].cell := w.late[k].value], late := w.late[..k] + w.late[k + 1..])
  }

  ghost predicate Runs(n: nat, steps: seq<Step>, states: seq<World>) {
    && |states| == |steps| + 1 && states[0] == Start(n)
    && (forall k | 0 <= k < |steps| :: Enabled(states[k], steps[k]) && states[k + 1] == Apply(states[k], steps[k]))
  }

  /** What `current` returns. */
  function Visible(w: World, i: nat): Option<int> {
    if i >= |w.entries| then None
    else
      match w.entries[i].state
      case Closed => None
      case Detached(v) => Some(v)
      case Serving(c) => if c < |w.cells| then Some(w.cells[c]) else None
  }

  // ---- Invariants ----

  ghost predicate EntryOk(w: World, i: nat)
    requires i < |w.entries|
  {
    && Fits(w.entries[i], w.db)
    && (w.entries[i].state.Serving? ==> w.entries[i].state.pv < |w.cells|)
  }

  /** A late set belongs to the cell its entry serves, unless the entry was closed since. */
  ghost predicate LateOk(w: World, l: Late) {
    && l.who < |w.entries| && |w.closes| == |w.entries| && l.cell < |w.cells| && l.closes <= w.closes[l.who]
    && (l.closes == w.closes[l.who] <==> w.entries[l.who].state == Serving(l.cell))
    && forall i | 0 <= i < |w.entries| && w.entries[i].state == Serving(l.cell) :: i == l.who
  }

  /** No two served entries share a cell, nor does a cell stand under two names. */
  ghost predicate Unshared(db: map<Key, nat>) {
    forall k1, k2 | k1 in db && k2 in db && db[k1] == db[k2] :: k1 == k2
  }

  ghost predicate NamesApart(entries: seq<Entry<nat>>) {
    forall i, j | 0 <= i < j < |entries| && entries[i].state.Serving? && entries[j].state.Serving? ::
      entries[i].reg != entries[j].reg
  }

  /** The name stands in a database for an entry that is served under it. */
  ghost predicate SomeoneServes(entries: seq<Entry<nat>>, key: Key, cell: nat) {
    exists i | 0 <= i < |entries| :: entries[i] == Entry(Serving(cell), Some(key))
  }

  ghost predicate Inv(w: World) {
    && |w.closes| == |w.entries|
    && (forall i | 0 <= i < |w.entries| :: EntryOk(w, i))
    && (forall key | key in w.db :: w.db[key] < |w.cells| && SomeoneServes(w.entries, key, w.db[key]))
    && Unshared(w.db) && NamesApart(w.entries)
    && (forall k | 0 <= k < |w.late| :: LateOk(w, w.late[k]))
  }

  /** Two served entries have different cells. */
  lemma {:induction false} CellsApart(w: World, i: nat, j: nat)
    requires Inv(w) && i < |w.entries| && j < |w.entries| && i != j
    requires w.entries[i].state.Serving? && w.entries[j].state.Serving?
    ensures w.entries[i].state.pv != w.entries[j].state.pv
  {
    assert EntryOk(w, i) && EntryOk(w, j);
  }

  lemma {:induction false} SetKeeps(w: World, k: nat)
    requires Inv(w) && Enabled(w, Set(k))
    ensures Inv(Apply(w, Set(k)))
  {
    var w' := Apply(w, Set(k));
    forall i | 0 <= i < |w'.entries| ensures EntryOk(w', i) {
      assert EntryOk(w, i);
    }
    forall j | 0 <= j < |w'.late| ensures LateOk(w', w'.late[j]) {
      assert w'.late[j] == w.late[if j < k then j else j + 1];
      assert LateOk(w, w'.late[j]);
    }
  }

  /** The other entries keep what they serve. */
  lemma {:induction false} OthersFit(w: World, who: nat, action: Action, i: nat)
    requires Inv(w) && who < |w.entries| && i < |w.entries| && i != who
    ensures Fits(w.entries[i], TurnOf(w, who, action).db)
  {
    assert EntryOk(w, i) && EntryOk(w, who);
    if action.Close? && w.entries[i].state.Serving? && w.entries[who].state.Serving? {
      assert w.entries[i].reg != w.entries[who].reg;
    }
  }

  lemma {:induction false} OwnFits(w: World, who: nat, action: Action)
    requires Inv(w) && who < |w.entries|
    ensures Fits(TurnOf(w, who, action).entry, TurnOf(w, who, action).db)
  {
    assert EntryOk(w, who);
  }

  lemma {:induction false} DbKeeps(w: World, who: nat, action: Action)
    requires Inv(w) && who < |w.entries|
    ensures var w' := AfterTurn(w, who, action); Unshared(w'.db) && forall key | key in w'.db :: w'.db[key] < |w'.cells|
  {
  }

  /** No name stays behind when its entry stops being served. */
  lemma {:induction false} DbStaysServed(w: World, who: nat, action: Action, key: Key)
    requires Inv(w) && who < |w.entries| && key in TurnOf(w, who, action).db
    ensures SomeoneServes(AfterTurn(w, who, action).entries, key, TurnOf(w, who, action).db[key])
  {
    var w', t := AfterTurn(w, who, action), TurnOf(w, who, action);
    assert EntryOk(w, who);
    if key in w.db && t.db[key] == w.db[key] {
      var i :| 0 <= i < |w.entries| && w.entries[i] == Entry(Serving(w.db[key]), Some(key));
      assert w'.entries[i] == Entry(Serving(w.db[key]), Some(key));
    } else {
      assert w'.entries[who] == Entry(Serving(t.db[key]), Some(key));
    }
  }

  lemma {:induction false} NamesKeep(w: World, who: nat, action: Action, i: nat)
    requires Inv(w) && who < |w.entries| && i < |w.entries| && i != who
    requires TurnOf(w, who, action).entry.state.Serving? && w.entries[i].state.Serving?
    ensures w.entries[i].reg != TurnOf(w, who, action).entry.reg
  {
    assert EntryOk(w, i) && EntryOk(w, who);
  }

  lemma {:induction false} LateKeeps(w: World, who: nat, action: Action, l: Late)
    requires Inv(w) && who < |w.entries| && LateOk(w, l)
    ensures LateOk(AfterTurn(w, who, action), l)
  {
    assert EntryOk(w, who);
  }

  lemma {:induction false} NewLateOk(w: World, who: nat, action: Action)
    requires Inv(w) && who < |w.entries| && TurnOf(w, who, action).late.Some?
    ensures LateOk(AfterTurn(w, who, action), Late(who, w.closes[who], TurnOf(w, who, action).late.value.0, TurnOf(w, who, action).late.value.1))
  {
    assert EntryOk(w, who);
    forall i | 0 <= i < |w.entries| && i != who && w.entries[i].state.Serving?
      ensures w.entries[i].state != w.entries[who].state
    {
      CellsApart(w, i, who);
    }
  }

  lemma {:induction false} TurnKeeps(w: World, who: nat, action: Action)
    requires Inv(w) && who < |w.entries|
    ensures Inv(AfterTurn(w, who, action))
  {
    var w' := AfterTurn(w, who, action);
    forall i | 0 <= i < |w'.entries| ensures EntryOk(w', i) {
      assert EntryOk(w, i);
      OwnFits(w, who, action);
      if i != who {
        OthersFit(w, who, action, i);
      }
    }
    DbKeeps(w, who, action);
    forall key | key in w'.db ensures SomeoneServes(w'.entries, key, w'.db[key]) {
      DbStaysServed(w, who, action, key);
    }
    forall i, j | 0 <= i < j < |w'.entries| && w'.entries[i].state.Serving? && w'.entries[j].state.Serving?
      ensures w'.entries[i].reg != w'.entries[j].reg
    {
      if i == who {
        NamesKeep(w, who, action, j);
      } else if j == who {
        NamesKeep(w, who, action, i);
      }
    }
    forall k | 0 <= k < |w'.late| ensures LateOk(w', w'.late[k]) {
      if k < |w.late| {
        LateKeeps(w, who, action, w.late[k]);
      } else {
        NewLateOk(w, who, action);
      }
    }
  }

  lemma {:induction false} RunKeeps(n: nat, steps: seq<Step>, states: seq<World>, k: nat)
    requires Runs(n, steps, states) && k <= |steps|
    ensures Inv(states[k]) && |states[k].entries| == n
    decreases k
  {
    if k > 0 {
      RunKeeps(n, steps, states, k - 1);
      match steps[k - 1]
      case Set(s) => SetKeeps(states[k - 1], s);
      case Take(who, action) => TurnKeeps(states[k - 1], who, action);
    }
  }

  /** In every reachable state a served PV is the cell its database has under its registered name,
      and no one else's; a PV holding its value itself is registered nowhere; and a name stands in a
      database only for the PV served under it, so a close frees it. */
  lemma {:induction false} ServedUnderItsName(n: nat, steps: seq<Step>, states: seq<World>, k: nat, i: nat)
    requires Runs(n, steps, states) && k <= |steps| && i < n
    ensures var w := states[k];
            && i < |w.entries| && Fits(w.entries[i], w.db)
            && forall j | 0 <= j < |w.entries| && j != i && w.entries[i].state.Serving? && w.entries[j].state.Serving? ::
                 w.entries[j].state.pv != w.entries[i].state.pv
    ensures forall key | key in states[k].db :: SomeoneServes(states[k].entries, key, states[k].db[key])
  {
    RunKeeps(n, steps, states, k);
    var w := states[k];
    assert EntryOk(w, i);
    forall j | 0 <= j < |w.entries| && j != i && w.entries[i].state.Serving? && w.entries[j].state.Serving?
      ensures w.entries[j].state.pv != w.entries[i].state.pv
    {
      CellsApart(w, i, j);
    }
  }

  /** A registration is for good: a PV is adopted at most once, closed in between or not. */
  lemma {:induction false} AdoptedAtMostOnce(n: nat, steps: seq<Step>, states: seq<World>, j: nat, k: nat, i: nat)
    requires Runs(n, steps, states) && j <= k <= |steps| && i < n
    requires |states[j].entries| == n && states[j].entries[i].reg.Some?
    ensures |states[k].entries| == n && states[k].entries[i].reg == states[j].entries[i].reg
    ensures k < |steps| && steps[k].Take? && steps[k].who == i && steps[k].action.Adopt? ==>
              TurnOf(states[k], i, steps[k].action).outcome in {AlreadyServed, NeverOpened}
    decreases k
  {
    RunKeeps(n, steps, states, k);
    if j < k {
      AdoptedAtMostOnce(n, steps, states, j, k - 1, i);
      RunKeeps(n, steps, states, k - 1);
      RegistrationStays(states[k - 1], steps[k - 1], i);
    }
    if k < |steps| && steps[k].Take? && steps[k].who == i && steps[k].action.Adopt? {
      RegisteredIsRefused(states[k], i, steps[k].action);
    }
  }

  lemma RegistrationStays(w: World, step: Step, i: nat)
    requires Inv(w) && Enabled(w, step) && i < |w.entries| && w.entries[i].reg.Some?
    ensures |Apply(w, step).entries| == |w.entries| && Apply(w, step).entries[i].reg == w.entries[i].reg
  {
    assert EntryOk(w, i);
  }

  lemma RegisteredIsRefused(w: World, i: nat, action: Action)
    requires Inv(w) && i < |w.entries| && w.entries[i].reg.Some? && action.Adopt?
    ensures TurnOf(w, i, action).outcome in {AlreadyServed, NeverOpened}
  {
    assert EntryOk(w, i);
  }

  // ---- The register ----

  /** What a caller knows of a step: who called, with what, and whether the call was accepted; or
      that the `k`th of the accepted writes still under way is done. */
  datatype Seen = Took(who: nat, action: Action, ok: bool) | Finished(k: nat)

  /** What a PV is for its users. `adopted` and `served` follow from the calls that were accepted. */
  datatype Register = Register(value: Option<int>, closes: nat, adopted: bool, served: bool)

  /** An accepted open or post of a served PV, under way. */
  datatype Promise = Promise(who: nat, closes: nat, v: int)

  datatype Users = Users(regs: seq<Register>, promised: seq<Promise>)

  function NoUsers(n: nat): Users {
    Users(seq(n, _ => Register(None, 0, false, false)), [])
  }

  /** An accepted write counts at once, or on a served PV when it is done, and then only if the PV was
      not closed in between. */
  function Writes(u: Users, who: nat, v: int): Users
    requires who < |u.regs|
  {
    var r := u.regs[who];
    if r.served then u.(promised := u.promised + [Promise(who, r.closes, v)])
    else u.(regs := u.regs[who := r.(value := Some(v), served := r.adopted)])
  }

  function Follows(u: Users, seen: Seen): Users {
    match seen
    case Took(who, action, ok) =>
      if !ok || who >= |u.regs| then u
      else
        (match action
         case Open(v, _) => Writes(u, who, v)
         case Post(v) => Writes(u, who, v)
         case Close => u.(regs := u.regs[who := u.regs[who].(value := None, closes := u.regs[who].closes + 1, served := false)])
         case Adopt(_, _) => u.(regs := u.regs[who := u.regs[who].(adopted := true, served := true)]))
    case Finished(k) =>
      if k >= |u.promised| || u.promised[k].who >= |u.regs| then u
      else
        var p := u.promised[k];
        var left := u.promised[..k] + u.promised[k + 1..];
        if u.regs[p.who].closes == p.closes then Users(u.regs[p.who := u.regs[p.who].(value := Some(p.v))], left)
        else u.(promised := left)
  }

  function SeenOf(w: World, step: Step): Seen
    requires Enabled(w, step)
  {
    match step
    case Take(who, action) => Took(who, action, TurnOf(w, who, action).outcome.Done?)
    case Set(k) => Finished(k)
  }

  function History(n: nat, steps: seq<Step>, states: seq<World>): Users
    requires |states| == |steps| + 1 && forall k | 0 <= k < |steps| :: Enabled(states[k], steps[k])
  {
    if steps == [] then NoUsers(n)
    else
      var k := |steps| - 1;
      Follows(History(n, steps[..k], states[..k + 1]), SeenOf(states[k], steps[k]))
  }

  ghost predicate RegisterFits(w: World, r: Register, i: nat)
    requires i < |w.entries| == |w.closes|
  {
    && r.value == Visible(w, i) && r.closes == w.closes[i]
    && (r.adopted <==> w.entries[i].reg.Some?) && (r.served <==> w.entries[i].state.Serving?)
  }

  ghost predicate UsersFit(w: World, u: Users) {
    && |u.regs| == |w.entries| == |w.closes|
    && (forall i | 0 <= i < |u.regs| :: RegisterFits(w, u.regs[i], i))
    && |u.promised| == |w.late|
    && (forall k | 0 <= k < |w.late| :: u.promised[k] == Promise(w.late[k].who, w.late[k].closes, w.late[k].value))
  }

  lemma {:induction false} SetFits(w: World, u: Users, k: nat)
    requires Inv(w) && Enabled(w, Set(k)) && UsersFit(w, u)
    ensures UsersFit(Apply(w, Set(k)), Follows(u, Finished(k)))
  {
    var w', u' := Apply(w, Set(k)), Follows(u, Finished(k));
    assert LateOk(w, w.late[k]);
    forall i | 0 <= i < |u'.regs| ensures RegisterFits(w', u'.regs[i], i) {
      assert RegisterFits(w, u.regs[i], i) && EntryOk(w, i);
    }
  }

  /** The entry whose turn it is. */
  lemma {:induction false} OwnFollows(w: World, u: Users, who: nat, action: Action)
    requires Inv(w) && who < |w.entries| && UsersFit(w, u)
    ensures var u' := Follows(u, SeenOf(w, Take(who, action)));
            |u'.regs| == |w.entries| && RegisterFits(AfterTurn(w, who, action), u'.regs[who], who)
  {
    assert EntryOk(w, who) && RegisterFits(w, u.regs[who], who);
  }

  lemma {:induction false} OthersFollow(w: World, u: Users, who: nat, action: Action, i: nat)
    requires Inv(w) && who < |w.entries| && UsersFit(w, u) && i < |w.entries| && i != who
    ensures var u' := Follows(u, SeenOf(w, Take(who, action)));
            |u'.regs| == |w.entries| && RegisterFits(AfterTurn(w, who, action), u'.regs[i], i)
  {
    assert EntryOk(w, i) && RegisterFits(w, u.regs[i], i);
  }

  /** The late set a call leaves carries that call's argument. */
  lemma {:induction false} PromisesFollow(w: World, u: Users, who: nat, action: Action)
    requires Inv(w) && who < |w.entries| && UsersFit(w, u)
    ensures var w', u' := AfterTurn(w, who, action), Follows(u, SeenOf(w, Take(who, action)));
            && |u'.promised| == |w'.late|
            && forall k | 0 <= k < |w'.late| ::
                 u'.promised[k] == Promise(w'.late[k].who, w'.late[k].closes, w'.late[k].value)
  {
    assert EntryOk(w, who) && RegisterFits(w, u.regs[who], who);
  }

  lemma {:induction false} TurnFits(w: World, u: Users, who: nat, action: Action)
    requires Inv(w) && who < |w.entries| && UsersFit(w, u)
    ensures UsersFit(AfterTurn(w, who, action), Follows(u, SeenOf(w, Take(who, action))))
  {
    PromisesFollow(w, u, who, action);
    OwnFollows(w, u, who, action);
    forall i | 0 <= i < |w.entries| && i != who
      ensures RegisterFits(AfterTurn(w, who, action), Follows(u, SeenOf(w, Take(who, action))).regs[i], i)
    {
      OthersFollow(w, u, who, action, i);
    }
  }

  lemma {:induction false} StepFits(w: World, u: Users, step: Step)
    requires Inv(w) && Enabled(w, step) && UsersFit(w, u)
    ensures UsersFit(Apply(w, step), Follows(u, SeenOf(w, step)))
  {
    match step
    case Set(k) => SetFits(w, u, k);
    case Take(who, action) => TurnFits(w, u, who, action);
  }

  lemma {:induction false} HistoryFits(n: nat, steps: seq<Step>, states: seq<World>)
    requires Runs(n, steps, states)
    ensures UsersFit(states[|steps|], History(n, steps, states))
    decreases |steps|
  {
    if steps != [] {
      var k := |steps| - 1;
      assert Runs(n, steps[..k], states[..k + 1]);
      HistoryFits(n, steps[..k], states[..k + 1]);
      RunKeeps(n, steps, states, k);
      StepFits(states[k], History(n, steps[..k], states[..k + 1]), steps[k]);
    }
  }

  /** The three phases refine one register: in every run of any number of PVs, overlapping calls
      and failed installs, what `current` returns is the argument of the last accepted call that
      counted, `None` at first and after a close. A set that comes late neither reopens a closed PV
      nor overwrites a reopened one, and no PV sees another's writes. */
  lemma {:induction false} RefinesRegister(n: nat, steps: seq<Step>, states: seq<World>, i: nat)
    requires Runs(n, steps, states) && i < n
    ensures var regs := History(n, steps, states).regs;
            i < |regs| && Visible(states[|steps|], i) == regs[i].value
  {
    RunKeeps(n, steps, states, |steps|);
    HistoryFits(n, steps, states);
    assert RegisterFits(states[|steps|], History(n, steps, states).regs[i], i);
  }

  /** When a call is refused is a matter of the register and the registration alone: a post
      exactly when there is no value; an open only when there is none and the name, kept from an
      earlier adoption, cannot be installed: another PV may have taken it since the close. A
      refused call changes nothing. */
  lemma {:induction false} RefusedIff(w: World, who: nat, action: Action)
    requires Inv(w) && who < |w.entries|
    ensures var refused := !TurnOf(w, who, action).outcome.Done?;
            && (action.Post? ==> (refused <==> Visible(w, who).None?))
            && (action.Open? ==> (refused <==>
                  && Visible(w, who).None? && w.entries[who].reg.Some?
                  && (action.fails || w.entries[who].reg.value in w.db)))
            && (action.Adopt? ==> (refused <==>
                  || Visible(w, who).None? || w.entries[who].reg.Some? || action.fails || action.key in w.db))
            && (refused ==> AfterTurn(w, who, action) == w)
  {
    assert EntryOk(w, who);
    var t := TurnOf(w, who, action);
    if !t.outcome.Done? {
      assert w.entries[who := t.entry] == w.entries;
    }
  }
}
