/**
 `assign` of `src/pva/value.rs`: writing a Python object into a field of a given
 type, marking what it touches. It may stop half-way through a structure; the
 theorem holds either way. Scalar and array conversion is left abstract.
 */
module Assign {
  import opened Common
  import opened PvDesc
  import opened PvValue

  /** The Python objects `assign` tells apart. */
  datatype PyObj =
    | PyNone
    | PyBool(b: bool)
    | PyInt(i: int)
    | PyFloat(raw: int)
    | PyStr(s: string)
    | PyTuple(items: seq<PyObj>)
    | PyList(items: seq<PyObj>)
    | PyDict(entries: seq<PyEntry>)
    | PyArray(st: ScalarType, ndim: nat, items: seq<PyObj>)
    | PyValue(id: string, members: Members, plain: seq<PyEntry>) // a structure Value and its `todict`
    | PyNumberLike(index: bool)                                 // only `__index__`, or only `__float__`
    | PyOther

  /** `key` is `None` for a key that is not a string. */
  datatype PyEntry = PyEntry(key: Option<string>, value: PyObj)

  datatype PyError = KeyError | TypeError | ValueError

  /** Scalar and array conversion: the raw contents, or an exception. */
  datatype Conv = Conv(
    scalar: (PyObj, ScalarType) -> Result<int, PyError>,
    elems: (PyObj, ScalarType) -> Result<seq<int>, PyError>)

  function Max(a: nat, b: nat): nat {
    if a < b then b else a
  }

  function Height(obj: PyObj): nat {
    match obj
    case PyTuple(items) => 1 + HeightAll(items)
    case PyList(items) => 1 + HeightAll(items)
    case PyArray(_, _, items) => 1 + HeightAll(items)
    case PyDict(entries) => 1 + HeightEntries(entries)
    case PyValue(_, _, plain) => 1 + HeightEntries(plain)
    case _ => 1
  }

  function HeightAll(items: seq<PyObj>): nat {
    if items == [] then 1 else Max(Height(items[0]), HeightAll(items[1..]))
  }

  function HeightEntries(es: seq<PyEntry>): nat {
    if es == [] then 1 else Max(HeightEntry(es[0]), HeightEntries(es[1..]))
  }

  function HeightEntry(e: PyEntry): nat {
    Height(e.value)
  }

  lemma {:induction false} HeightAt(items: seq<PyObj>, i: nat)
    requires i < |items|
    ensures Height(items[i]) <= HeightAll(items)
  {
    if i > 0 {
      assert items[i] == items[1..][i - 1];
      HeightAt(items[1..], i - 1);
    }
  }

  /** The one-character strings of a string. */
  function Chars(s: string): (items: seq<PyObj>)
    ensures HeightAll(items) == 1
  {
    if s == "" then [] else
      var rest := Chars(s[1..]);
      var items := [PyStr([s[0]])] + rest;
      assert items[1..] == rest;
      items
  }

  function Keys(es: seq<PyEntry>): (items: seq<PyObj>)
    ensures HeightAll(items) == 1
  {
    if es == [] then [] else
      var rest := Keys(es[1..]);
      var items := [if es[0].key.Some? then PyStr(es[0].key.value) else PyOther] + rest;
      assert items[1..] == rest;
      items
  }

  /** What iterating the object yields. */
  function TryIter(obj: PyObj): (r: Result<seq<PyObj>, PyError>)
    ensures r.Ok? ==> HeightAll(r.value) <= Height(obj)
  {
    match obj
    case PyTuple(items) => Ok(items)
    case PyList(items) => Ok(items)
    case PyArray(_, ndim, items) => if ndim == 0 then Err(TypeError) else Ok(items)
    case PyDict(entries) => Ok(Keys(entries))
    case PyStr(s) => Ok(Chars(s))
    case PyValue(_, _, plain) => Ok(Keys(plain))
    case _ => Err(TypeError)
  }

  // ---- The type a bare object implies ----

  function InferDesc(obj: PyObj): Result<Option<FieldDesc>, PyError> {
    match obj
    case PyNone => Ok(None)
    case PyValue(id, members, _) => Ok(Some(Structure(id, members)))
    case PyBool(_) => Ok(Some(Scalar(Boolean)))
    case PyInt(_) => Ok(Some(Scalar(Long)))
    case PyFloat(_) => Ok(Some(Scalar(Double)))
    case PyStr(_) => Ok(Some(Scalar(String)))
    case PyArray(st, ndim, _) => Ok(Some(if ndim == 0 then Scalar(st) else ScalarArray(st)))
    case PyList(items) =>
      Ok(Some(ScalarArray(if items != [] && (forall i | 0 <= i < |items| :: items[i].PyStr?) then String else Double)))
    case PyNumberLike(index) => Ok(Some(Scalar(if index then Long else Double)))
    case PyTuple(_) => Err(TypeError)
    case PyDict(_) => Err(TypeError)
    case PyOther => Err(TypeError)
  }

  /** The members the first pass accepts. */
  predicate Accepts(wanted: Option<FieldDesc>, d: FieldDesc) {
    match (wanted, d)
    case (Some(Scalar(w)), Scalar(st)) =>
      if w == String then st == String
      else if w == Boolean then st == Boolean
      else if w == Long then st != String && st != Boolean
      else if w == Double then st == Double || st == Float
      else false
    case (Some(ScalarArray(w)), ScalarArray(st)) => w == st
    case (Some(Structure(_, _)), Structure(_, _)) => true
    case _ => false
  }

  /** The second pass: any array for an array, any number for a float. */
  predicate AcceptsLoosely(wanted: Option<FieldDesc>, d: FieldDesc) {
    match (wanted, d)
    case (Some(ScalarArray(_)), ScalarArray(_)) => true
    case (Some(Scalar(w)), Scalar(st)) => w == Double && st != String && st != Boolean
    case _ => false
  }

  function FirstAccepting(variants: Members, wanted: Option<FieldDesc>, loosely: bool): (r: Option<nat>)
    ensures r.Some? ==>
              && MemberAt(variants, r.value).Some? && MemberAt(variants, r.value).value.Member?
              && var d := MemberAt(variants, r.value).value.desc;
              if loosely then AcceptsLoosely(wanted, d) else Accepts(wanted, d)
  {
    if variants.NoMember? then None
    else if (if loosely then AcceptsLoosely(wanted, variants.desc) else Accepts(wanted, variants.desc)) then Some(0)
    else
      match FirstAccepting(variants.rest, wanted, loosely)
      case None => None
      case Some(i) => Some(i + 1)
  }

  function FirstStructure(variants: Members): (r: Option<nat>)
    ensures r.Some? ==>
              MemberAt(variants, r.value).Some? && MemberAt(variants, r.value).value.Member?
              && MemberAt(variants, r.value).value.desc.Structure?
  {
    if variants.NoMember? then None
    else if variants.desc.Structure? then Some(0)
    else
      match FirstStructure(variants.rest)
      case None => None
      case Some(i) => Some(i + 1)
  }

  function PickUnionVariant(variants: Members, obj: PyObj): (r: Result<nat, PyError>)
    ensures r.Ok? ==>
              MemberAt(variants, r.value).Some? && MemberAt(variants, r.value).value.Member?
              && Stage(MemberAt(variants, r.value).value.desc) <= 1
  {
    match InferDesc(obj)
    case Err(e) => Err(e)
    case Ok(wanted) =>
      var strict := FirstAccepting(variants, wanted, false);
      if strict.Some? then Ok(strict.value)
      else
        var loose := FirstAccepting(variants, wanted, true);
        if loose.Some? then Ok(loose.value)
        else if obj.PyDict? && FirstStructure(variants).Some? then Ok(FirstStructure(variants).value)
        else Err(ValueError)
  }

  function IndexOf(ms: Members, name: string): (r: Option<nat>)
    ensures r.Some? ==> MemberAt(ms, r.value).Some? && MemberAt(ms, r.value).value.Member?
                        && MemberAt(ms, r.value).value.name == name
  {
    if ms.NoMember? then None
    else if ms.name == name then Some(0)
    else
      match IndexOf(ms.rest, name)
      case None => None
      case Some(i) => Some(i + 1)
  }

  // ---- assign ----

  /** What an assignment leaves behind, whether or not it raised. */
  datatype Outcome = Outcome(target: PvField, marks: set<nat>, error: Option<PyError>)

  datatype FieldsOutcome = FieldsOutcome(fields: Fields, marks: set<nat>, error: Option<PyError>)

  function Stage(d: FieldDesc): nat {
    match d
    case Scalar(_) => 0
    case ScalarArray(_) => 0
    case Structure(_, _) => 1
    case Union(_, _) => 3
    case Variant => 3
    case _ => 5
  }

  /** A leaf's new value, or the exception with nothing changed. */
  function StoreLeaf(target: PvField, r: Result<PvField, PyError>, marks: set<nat>, bit: nat): Outcome {
    match r
    case Err(e) => Outcome(target, marks, Some(e))
    case Ok(f) => Outcome(f, marks + {bit}, None)
  }

  function SetField(fs: Fields, name: string, value: PvField): Fields {
    if fs.NoField? then fs
    else if fs.name == name then fs.(value := value)
    else fs.(rest := SetField(fs.rest, name, value))
  }

  function AssignTo(conv: Conv, d: FieldDesc, target: PvField, obj: PyObj, marks: set<nat>, bit: nat): Outcome
    decreases Height(obj), Stage(d), 1
  {
    if !d.Structure? then StoreLeaf(target, LeafValue(conv, d, obj), marks, bit)
    else if !(obj.PyDict? || obj.PyValue?) || !target.PvStructure? then Outcome(target, marks, Some(TypeError))
    else
      var r := AssignEntries(conv, d.fields, target.fields, Pairs(obj), marks, bit + 1, HeightEntries(Pairs(obj)));
      Outcome(target.(fields := r.fields), r.marks, r.error)
  }

  /** A dict's items, or those of the dict a Value stands for. */
  function Pairs(obj: PyObj): (es: seq<PyEntry>)
    requires obj.PyDict? || obj.PyValue?
    ensures HeightEntries(es) < Height(obj)
  {
    if obj.PyDict? then obj.entries else obj.plain
  }

  /** An object turned into a leaf of type `d`. */
  function LeafValue(conv: Conv, d: FieldDesc, obj: PyObj): Result<PvField, PyError>
    requires !d.Structure?
    decreases Height(obj), Stage(d), 0
  {
    match d
    case Scalar(st) =>
      (match conv.scalar(obj, st) case Err(e) => Err(e) case Ok(raw) => Ok(PvScalar(ScalarValue(st, raw))))
    case ScalarArray(st) =>
      (match conv.elems(obj, st) case Err(e) => Err(e) case Ok(raws) => Ok(PvScalarArray(st, raws)))
    case Union(_, variants) => BuildUnion(conv, variants, obj)
    case Variant => BuildVariant(conv, obj)
    case StructureArray(_, _) | UnionArray(_, _) | VariantArray =>
      match TryIter(obj)
      case Err(e) => Err(e)
      case Ok(items) =>
        match BuildItems(conv, d, items, Height(obj))
        case Err(e) => Err(e)
        case Ok(built) => Ok(ArrayOf(d, built))
  }

  function ArrayOf(d: FieldDesc, items: seq<PvField>): PvField
    requires Stage(d) == 5
  {
    if d.StructureArray? then PvStructureArray(items)
    else if d.UnionArray? then PvUnionArray(items)
    else PvVariantArray(items)
  }

  /** The dict's pairs in order; the first failure stops, keeping what was assigned before it. */
  function AssignEntries(conv: Conv, ms: Members, fs: Fields, es: seq<PyEntry>, marks: set<nat>, bit: nat, h: nat): FieldsOutcome
    requires HeightEntries(es) <= h
    decreases h, 6, |es|
  {
    if es == [] then FieldsOutcome(fs, marks, None)
    else if es[0].key.None? then FieldsOutcome(fs, marks, Some(TypeError))
    else
      var key := es[0].key.value;
      if Lookup(ms, key).None? || GetField(fs, key).None? then FieldsOutcome(fs, marks, Some(KeyError))
      else
        assert HeightEntry(es[0]) <= h;
        var r := AssignTo(conv, Lookup(ms, key).value, GetField(fs, key).value, es[0].value, marks, bit + OffsetOf(ms, key));
        var fs' := SetField(fs, key, r.target);
        if r.error.Some? then FieldsOutcome(fs', r.marks, r.error)
        else AssignEntries(conv, ms, fs', es[1..], r.marks, bit, h)
  }

  /** The elements of a structure, union or variant array. */
  function BuildItems(conv: Conv, d: FieldDesc, items: seq<PyObj>, h: nat): Result<seq<PvField>, PyError>
    requires HeightAll(items) <= h && Stage(d) == 5
    decreases h, 4, |items|
  {
    if items == [] then Ok([])
    else
      match BuildItem(conv, d, items[0], h)
      case Err(e) => Err(e)
      case Ok(f) =>
        match BuildItems(conv, d, items[1..], h)
        case Err(e) => Err(e)
        case Ok(rest) => Ok([f] + rest)
  }

  /** One element of an array. */
  function BuildItem(conv: Conv, d: FieldDesc, item: PyObj, h: nat): Result<PvField, PyError>
    requires Height(item) <= h && Stage(d) == 5
    decreases h, 4, 0
  {
    if d.StructureArray? then
      if item.PyNone? then Ok(PvNull)
      else
        var elem := Structure(d.id, d.fields);
        var r := AssignTo(conv, elem, DefaultValue(elem), item, {}, 0);
        if r.error.Some? then Err(r.error.value) else Ok(r.target)
    else if d.UnionArray? then
      match BuildUnion(conv, d.variants, item)
      case Err(e) => Err(e)
      case Ok(u) => Ok(if u.PvUnion? && u.selector == -1 then PvNull else u)
    else if item.PyNone? then Ok(PvNull)
    else BuildVariant(conv, item)
  }

  function BuildUnion(conv: Conv, variants: Members, obj: PyObj): Result<PvField, PyError>
    decreases Height(obj), 2, 0
  {
    if obj.PyNone? then Ok(UnselectedUnion())
    else if obj.PyTuple? then
      if |obj.items| != 2 then Err(ValueError)
      else if !obj.items[0].PyStr? then Err(TypeError)
      else
        match IndexOf(variants, obj.items[0].s)
        case None => Err(KeyError)
        case Some(i) =>
          HeightAt(obj.items, 1);
          BuildSelected(conv, variants, i, obj.items[1], Height(obj) - 1, 6)
    else
      match PickUnionVariant(variants, obj)
      case Err(e) => Err(e)
      case Ok(i) => BuildSelected(conv, variants, i, obj, Height(obj), 1)
  }

  /** A fresh value of member `i`, assigned from `obj`. */
  function BuildSelected(conv: Conv, variants: Members, i: nat, obj: PyObj, h: nat, stage: nat): Result<PvField, PyError>
    requires MemberAt(variants, i).Some? && MemberAt(variants, i).value.Member?
    requires Height(obj) <= h && Stage(MemberAt(variants, i).value.desc) <= stage
    decreases h, stage, 2
  {
    var m := MemberAt(variants, i).value;
    var r := AssignTo(conv, m.desc, DefaultValue(m.desc), obj, {}, 0);
    if r.error.Some? then Err(r.error.value) else Ok(PvUnion(i, m.name, r.target))
  }

  function BuildVariant(conv: Conv, obj: PyObj): Result<PvField, PyError>
    decreases Height(obj), 2, 0
  {
    match InferDesc(obj)
    case Err(e) => Err(e)
    case Ok(None) => Ok(PvVariant(None, PvNull))
    case Ok(Some(d)) =>
      var r := AssignTo(conv, d, DefaultValue(d), obj, {}, 0);
      if r.error.Some? then Err(r.error.value) else Ok(PvVariant(Some(d), r.target))
  }

  /** The loop over the dict's pairs, as the structure case runs it. */
  method AssignPairs(conv: Conv, ms: Members, start: Fields, es: seq<PyEntry>, before: set<nat>, bit: nat)
    returns (r: FieldsOutcome)
    ensures r == AssignEntries(conv, ms, start, es, before, bit, HeightEntries(es))
  {
    var fs, marks := start, before;
    var i := 0;
    ghost var h := HeightEntries(es);
    while i < |es|
      invariant i <= |es| && HeightEntries(es[i..]) <= h
      invariant AssignEntries(conv, ms, fs, es[i..], marks, bit, h) == AssignEntries(conv, ms, start, es, before, bit, h)
    {
      var e := es[i];
      assert es[i..][0] == e && es[i..][1..] == es[i + 1..];
      if e.key.None? {
        return FieldsOutcome(fs, marks, Some(TypeError));
      }
      if Lookup(ms, e.key.value).None? || GetField(fs, e.key.value).None? {
        return FieldsOutcome(fs, marks, Some(KeyError));
      }
      var out := AssignTo(conv, Lookup(ms, e.key.value).value, GetField(fs, e.key.value).value, e.value, marks,
                          bit + OffsetOf(ms, e.key.value));
      fs, marks := SetField(fs, e.key.value, out.target), out.marks;
      if out.error.Some? {
        return FieldsOutcome(fs, marks, out.error);
      }
      i := i + 1;
    }
    assert es[i..] == [];
    return FieldsOutcome(fs, marks, None);
  }

  // ---- What every assignment keeps ----

  /** The bits of the leaves below a node whose own bit is `bit`. */
  function LeafBits(d: FieldDesc, bit: nat): set<nat> {
    if d.Structure? then MemberLeafBits(d.fields, bit + 1) else {bit}
  }

  function MemberLeafBits(ms: Members, bit: nat): set<nat> {
    if ms.NoMember? then {}
    else LeafBits(ms.desc, bit) + MemberLeafBits(ms.rest, bit + TotalBits(ms.desc))
  }

  lemma {:induction false} LeafBitsInSpan(d: FieldDesc, bit: nat, b: nat)
    requires b in LeafBits(d, bit)
    ensures bit <= b < bit + TotalBits(d)
    ensures WellFormed(d) ==> exists segs :: IsLeaf(d, segs) && BitForPath(d, segs) == Some(b - bit)
  {
    if d.Structure? {
      MemberLeafBitsInSpan(d.fields, bit + 1, b);
      if WellFormed(d) {
        var name, segs :| && Lookup(d.fields, name).Some? && IsLeaf(Lookup(d.fields, name).value, segs)
                          && BitForPath(Lookup(d.fields, name).value, segs).Some?
                          && bit + 1 + OffsetOf(d.fields, name) + BitForPath(Lookup(d.fields, name).value, segs).value == b;
        var path := [name] + segs;
        assert path[1..] == segs;
        assert IsLeaf(d, path) && BitForPath(d, path) == Some(b - bit);
      }
    } else {
      assert IsLeaf(d, []) && BitForPath(d, []) == Some(0);
    }
  }

  lemma {:induction false} MemberLeafBitsInSpan(ms: Members, bit: nat, b: nat)
    requires b in MemberLeafBits(ms, bit)
    ensures bit <= b < bit + MembersBits(ms)
    ensures MembersOk(ms) ==>
              exists name, segs :: && Lookup(ms, name).Some? && IsLeaf(Lookup(ms, name).value, segs)
                                   && BitForPath(Lookup(ms, name).value, segs).Some?
                                   && bit + OffsetOf(ms, name) + BitForPath(Lookup(ms, name).value, segs).value == b
  {
    if b in LeafBits(ms.desc, bit) {
      LeafBitsInSpan(ms.desc, bit, b);
      if MembersOk(ms) {
        var segs :| IsLeaf(ms.desc, segs) && BitForPath(ms.desc, segs) == Some(b - bit);
        assert Lookup(ms, ms.name) == Some(ms.desc) && OffsetOf(ms, ms.name) == 0;
      }
    } else {
      MemberLeafBitsInSpan(ms.rest, bit + TotalBits(ms.desc), b);
      if MembersOk(ms) {
        var name, segs :| && Lookup(ms.rest, name).Some? && IsLeaf(Lookup(ms.rest, name).value, segs)
                          && BitForPath(Lookup(ms.rest, name).value, segs).Some?
                          && bit + TotalBits(ms.desc) + OffsetOf(ms.rest, name)
                             + BitForPath(Lookup(ms.rest, name).value, segs).value == b;
        assert Lookup(ms, name) == Lookup(ms.rest, name);
      }
    }
  }

  lemma {:induction false} MemberLeafBitsInclude(ms: Members, bit: nat, name: string)
    requires Lookup(ms, name).Some?
    ensures LeafBits(Lookup(ms, name).value, bit + OffsetOf(ms, name)) <= MemberLeafBits(ms, bit)
  {
    if ms.name != name {
      MemberLeafBitsInclude(ms.rest, bit + TotalBits(ms.desc), name);
    }
  }

  /** The new value still has its type; marks only grew, and only by leaf bits of the target;
      every leaf that differs is marked. */
  ghost predicate Kept(d: FieldDesc, before: PvField, marks: set<nat>, bit: nat, after: PvField, marks': set<nat>) {
    && Conforms(d, after)
    && marks <= marks'
    && marks' - marks <= LeafBits(d, bit)
    && forall segs | IsLeaf(d, segs) ::
         FieldAt(after, segs) == FieldAt(before, segs) || MarkedAt(d, bit, marks', segs)
  }

  ghost predicate LeafKept(ms: Members, before: Fields, bit: nat, after: Fields, marks': set<nat>, name: string, segs: seq<string>)
    requires Lookup(ms, name).Some?
  {
    && GetField(before, name).Some? && GetField(after, name).Some?
    && (|| FieldAt(GetField(after, name).value, segs) == FieldAt(GetField(before, name).value, segs)
        || MarkedAt(Lookup(ms, name).value, bit + OffsetOf(ms, name), marks', segs))
  }

  ghost predicate FieldsKept(ms: Members, before: Fields, marks: set<nat>, bit: nat, after: Fields, marks': set<nat>) {
    && FieldsConform(ms, after)
    && marks <= marks'
    && marks' - marks <= MemberLeafBits(ms, bit)
    && forall name, segs | Lookup(ms, name).Some? && IsLeaf(Lookup(ms, name).value, segs) ::
         LeafKept(ms, before, bit, after, marks', name, segs)
  }

  lemma {:induction false} SetFieldKeeps(ms: Members, fs: Fields, key: string, value: PvField)
    requires FieldsConform(ms, fs) && Lookup(ms, key).Some? && Conforms(Lookup(ms, key).value, value)
    ensures FieldsConform(ms, SetField(fs, key, value))
    ensures GetField(SetField(fs, key, value), key) == Some(value)
    ensures forall name | name != key :: GetField(SetField(fs, key, value), name) == GetField(fs, name)
    decreases fs
  {
    if ms.name != key {
      SetFieldKeeps(ms.rest, fs.rest, key, value);
    }
  }

  lemma {:induction false} NothingAssigned(ms: Members, fs: Fields, marks: set<nat>, bit: nat)
    requires FieldsConform(ms, fs)
    ensures FieldsKept(ms, fs, marks, bit, fs, marks)
  {
    forall name, segs | Lookup(ms, name).Some? && IsLeaf(Lookup(ms, name).value, segs)
      ensures LeafKept(ms, fs, bit, fs, marks, name, segs)
    {
      MemberField(ms, fs, name);
    }
  }

  /** One member assigned. */
  lemma {:induction false} MemberAssigned(
      ms: Members, fs: Fields, marks: set<nat>, bit: nat, key: string, after: PvField, marks': set<nat>)
    requires FieldsConform(ms, fs) && Lookup(ms, key).Some? && GetField(fs, key).Some?
    requires Kept(Lookup(ms, key).value, GetField(fs, key).value, marks, bit + OffsetOf(ms, key), after, marks')
    ensures FieldsKept(ms, fs, marks, bit, SetField(fs, key, after), marks')
  {
    SetFieldKeeps(ms, fs, key, after);
    MemberLeafBitsInclude(ms, bit, key);
    forall name, segs | Lookup(ms, name).Some? && IsLeaf(Lookup(ms, name).value, segs)
      ensures LeafKept(ms, fs, bit, SetField(fs, key, after), marks', name, segs)
    {
      MemberField(ms, fs, name);
    }
  }

  lemma {:induction false} FieldsKeptInTurn(
      ms: Members, bit: nat, f0: Fields, m0: set<nat>, f1: Fields, m1: set<nat>, f2: Fields, m2: set<nat>)
    requires FieldsKept(ms, f0, m0, bit, f1, m1) && FieldsKept(ms, f1, m1, bit, f2, m2)
    ensures FieldsKept(ms, f0, m0, bit, f2, m2)
  {
    forall name, segs | Lookup(ms, name).Some? && IsLeaf(Lookup(ms, name).value, segs)
      ensures LeafKept(ms, f0, bit, f2, m2, name, segs)
    {
      assert LeafKept(ms, f0, bit, f1, m1, name, segs) && LeafKept(ms, f1, bit, f2, m2, name, segs);
    }
  }

  lemma {:induction false} StructureKept(
      d: FieldDesc, before: PvField, marks: set<nat>, bit: nat, fs: Fields, marks': set<nat>)
    requires d.Structure? && Conforms(d, before) && FieldsKept(d.fields, before.fields, marks, bit + 1, fs, marks')
    ensures Kept(d, before, marks, bit, before.(fields := fs), marks')
  {
    var after := before.(fields := fs);
    forall segs | IsLeaf(d, segs)
      ensures FieldAt(after, segs) == FieldAt(before, segs) || MarkedAt(d, bit, marks', segs)
    {
      assert LeafKept(d.fields, before.fields, bit + 1, fs, marks', segs[0], segs[1..]);
    }
  }

  lemma {:induction false} LeafStored(d: FieldDesc, target: PvField, r: Result<PvField, PyError>, marks: set<nat>, bit: nat)
    requires !d.Structure? && Conforms(d, target) && (r.Ok? ==> Conforms(d, r.value))
    ensures var out := StoreLeaf(target, r, marks, bit); Kept(d, target, marks, bit, out.target, out.marks)
  {
    forall segs | IsLeaf(d, segs) ensures segs == [] {
    }
  }

  /** `assign`, on success and on failure part-way: the target keeps its type, every leaf that
      differs is marked, marks only grow, and only by the bits of leaves of the target. */
  lemma {:induction false} AssignKeeps(conv: Conv, d: FieldDesc, target: PvField, obj: PyObj, marks: set<nat>, bit: nat)
    requires Conforms(d, target)
    ensures var out := AssignTo(conv, d, target, obj, marks, bit);
            Kept(d, target, marks, bit, out.target, out.marks)
    decreases Height(obj), Stage(d), 1
  {
    if !d.Structure? {
      LeafConforms(conv, d, obj);
      LeafStored(d, target, LeafValue(conv, d, obj), marks, bit);
    } else {
      NothingAssigned(d.fields, target.fields, marks, bit + 1);
      var fs, m := target.fields, marks;
      if obj.PyDict? || obj.PyValue? {
        var es := Pairs(obj);
        EntriesKeep(conv, d.fields, target.fields, es, marks, bit + 1, HeightEntries(es));
        var r := AssignEntries(conv, d.fields, target.fields, es, marks, bit + 1, HeightEntries(es));
        fs, m := r.fields, r.marks;
      }
      StructureKept(d, target, marks, bit, fs, m);
    }
  }

  lemma {:induction false} LeafConforms(conv: Conv, d: FieldDesc, obj: PyObj)
    requires !d.Structure?
    ensures var r := LeafValue(conv, d, obj); r.Ok? ==> Conforms(d, r.value)
    decreases Height(obj), Stage(d), 0
  {
    match d
    case Scalar(st) =>
    case ScalarArray(st) =>
    case Union(_, variants) => UnionConforms(conv, variants, obj);
    case Variant => VariantBuilt(conv, obj);
    case StructureArray(_, _) | UnionArray(_, _) | VariantArray =>
      if TryIter(obj).Ok? {
        var items := TryIter(obj).value;
        ItemsConform(conv, d, items, Height(obj));
        var built := BuildItems(conv, d, items, Height(obj));
        if built.Ok? {
          ElementsMakeArray(d, built.value);
        }
      }
  }

  lemma {:induction false} EntriesKeep(conv: Conv, ms: Members, fs: Fields, es: seq<PyEntry>, marks: set<nat>, bit: nat, h: nat)
    requires FieldsConform(ms, fs) && HeightEntries(es) <= h
    ensures var r := AssignEntries(conv, ms, fs, es, marks, bit, h);
            FieldsKept(ms, fs, marks, bit, r.fields, r.marks)
    decreases h, 6, |es|
  {
    NothingAssigned(ms, fs, marks, bit);
    if es != [] && es[0].key.Some? && Lookup(ms, es[0].key.value).Some? && GetField(fs, es[0].key.value).Some? {
      var key := es[0].key.value;
      assert HeightEntry(es[0]) <= h;
      MemberField(ms, fs, key);
      AssignKeeps(conv, Lookup(ms, key).value, GetField(fs, key).value, es[0].value, marks, bit + OffsetOf(ms, key));
      var r := AssignTo(conv, Lookup(ms, key).value, GetField(fs, key).value, es[0].value, marks, bit + OffsetOf(ms, key));
      var fs' := SetField(fs, key, r.target);
      MemberAssigned(ms, fs, marks, bit, key, r.target, r.marks);
      if r.error.None? {
        EntriesKeep(conv, ms, fs', es[1..], r.marks, bit, h);
        var rest := AssignEntries(conv, ms, fs', es[1..], r.marks, bit, h);
        FieldsKeptInTurn(ms, bit, fs, marks, fs', r.marks, rest.fields, rest.marks);
      }
    }
  }

  lemma {:induction false} SelectedBuilt(conv: Conv, variants: Members, i: nat, obj: PyObj, h: nat, stage: nat)
    requires MemberAt(variants, i).Some? && MemberAt(variants, i).value.Member?
    requires Height(obj) <= h && Stage(MemberAt(variants, i).value.desc) <= stage
    ensures var r := BuildSelected(conv, variants, i, obj, h, stage);
            r.Ok? ==> r.value.PvUnion? && r.value.selector == i && SelectedConforms(variants, r.value)
    decreases h, stage, 2
  {
    var m := MemberAt(variants, i).value;
    AssignKeeps(conv, m.desc, DefaultValue(m.desc), obj, {}, 0);
  }

  lemma {:induction false} UnionConforms(conv: Conv, variants: Members, obj: PyObj)
    ensures var r := BuildUnion(conv, variants, obj);
            r.Ok? ==> r.value.PvUnion? && (r.value == UnselectedUnion() || (r.value.selector >= 0 && SelectedConforms(variants, r.value)))
    decreases Height(obj), 2, 0
  {
    if obj.PyTuple? {
      if |obj.items| == 2 && obj.items[0].PyStr? && IndexOf(variants, obj.items[0].s).Some? {
        HeightAt(obj.items, 1);
        SelectedBuilt(conv, variants, IndexOf(variants, obj.items[0].s).value, obj.items[1], Height(obj) - 1, 6);
      }
    } else if !obj.PyNone? && PickUnionVariant(variants, obj).Ok? {
      SelectedBuilt(conv, variants, PickUnionVariant(variants, obj).value, obj, Height(obj), 1);
    }
  }

  lemma {:induction false} VariantBuilt(conv: Conv, obj: PyObj)
    ensures var r := BuildVariant(conv, obj); r.Ok? ==> r.value.PvVariant? && VariantConforms(r.value)
    decreases Height(obj), 2, 0
  {
    var inferred := InferDesc(obj);
    if inferred.Ok? && inferred.value.Some? {
      AssignKeeps(conv, inferred.value.value, DefaultValue(inferred.value.value), obj, {}, 0);
    }
  }

  /** An element an array of type `d` may hold. */
  predicate ElementOk(d: FieldDesc, f: PvField)
    requires Stage(d) == 5
  {
    || f.PvNull?
    || (d.StructureArray? && Conforms(Structure(d.id, d.fields), f))
    || (d.UnionArray? && f.PvUnion? && SelectedConforms(d.variants, f))
    || (d.VariantArray? && f.PvVariant? && VariantConforms(f))
  }

  predicate ElementsOk(d: FieldDesc, items: seq<PvField>)
    requires Stage(d) == 5
  {
    forall i | 0 <= i < |items| :: ElementOk(d, items[i])
  }

  lemma ElementsMakeArray(d: FieldDesc, items: seq<PvField>)
    requires Stage(d) == 5 && ElementsOk(d, items)
    ensures Conforms(d, ArrayOf(d, items))
  {
  }

  lemma {:induction false} ItemConforms(conv: Conv, d: FieldDesc, item: PyObj, h: nat)
    requires Height(item) <= h && Stage(d) == 5
    ensures var r := BuildItem(conv, d, item, h); r.Ok? ==> ElementOk(d, r.value)
    decreases h, 4, 0
  {
    if d.StructureArray? {
      var elem := Structure(d.id, d.fields);
      AssignKeeps(conv, elem, DefaultValue(elem), item, {}, 0);
    } else if d.UnionArray? {
      UnionConforms(conv, d.variants, item);
    } else {
      VariantBuilt(conv, item);
    }
  }

  lemma {:induction false} ItemsConform(conv: Conv, d: FieldDesc, items: seq<PyObj>, h: nat)
    requires HeightAll(items) <= h && Stage(d) == 5
    ensures var r := BuildItems(conv, d, items, h); r.Ok? ==> ElementsOk(d, r.value)
    decreases h, 4, |items|
  {
    if items != [] {
      ItemConforms(conv, d, items[0], h);
      ItemsConform(conv, d, items[1..], h);
      if BuildItems(conv, d, items, h).Ok? {
        var first, rest := BuildItem(conv, d, items[0], h).value, BuildItems(conv, d, items[1..], h).value;
        assert BuildItems(conv, d, items, h).value == [first] + rest;
      }
    }
  }

  // ---- A bare object given to a union ----

  lemma {:induction false} FirstAcceptingIsFirst(variants: Members, wanted: Option<FieldDesc>, loosely: bool, i: nat)
    requires MemberAt(variants, i).Some? && MemberAt(variants, i).value.Member?
    requires var d := MemberAt(variants, i).value.desc;
             if loosely then AcceptsLoosely(wanted, d) else Accepts(wanted, d)
    ensures var r := FirstAccepting(variants, wanted, loosely); r.Some? && r.value <= i
    decreases i
  {
    if i > 0 {
      FirstAcceptingIsFirst(variants.rest, wanted, loosely, i - 1);
    }
  }

  /** Member `i` takes an object of the inferred type, in the first pass or in the second. */
  predicate Takes(variants: Members, i: nat, wanted: Option<FieldDesc>, loosely: bool) {
    && MemberAt(variants, i).Some? && MemberAt(variants, i).value.Member?
    && var d := MemberAt(variants, i).value.desc;
       if loosely then AcceptsLoosely(wanted, d) else Accepts(wanted, d)
  }

  /** A bare object selects a member exactly when a type can be inferred from it and some member
      of the union takes that type, strictly or loosely. */
  lemma {:induction false} PickSucceedsIff(variants: Members, obj: PyObj)
    ensures PickUnionVariant(variants, obj).Ok?
            <==> && InferDesc(obj).Ok?
                 && exists i, loosely :: Takes(variants, i, InferDesc(obj).value, loosely)
  {
    if InferDesc(obj).Ok? {
      var wanted := InferDesc(obj).value;
      if i, loosely :| Takes(variants, i, wanted, loosely) {
        FirstAcceptingIsFirst(variants, wanted, loosely, i);
      }
      if PickUnionVariant(variants, obj).Ok? {
        var strict, loose := FirstAccepting(variants, wanted, false), FirstAccepting(variants, wanted, true);
        assert if strict.Some? then Takes(variants, strict.value, wanted, false) else Takes(variants, loose.value, wanted, true);
      }
    }
  }

  /** Which one: the first that takes the type strictly, and only if none does the first that takes
      it loosely. */
  lemma {:induction false} PickedIsFirst(variants: Members, obj: PyObj)
    requires PickUnionVariant(variants, obj).Ok? && InferDesc(obj).Ok?
    ensures var i, wanted := PickUnionVariant(variants, obj).value, InferDesc(obj).value;
            if exists j :: Takes(variants, j, wanted, false)
            then Takes(variants, i, wanted, false) && forall j :: Takes(variants, j, wanted, false) ==> i <= j
            else Takes(variants, i, wanted, true) && forall j :: Takes(variants, j, wanted, true) ==> i <= j
  {
    var wanted := InferDesc(obj).value;
    forall j, loosely | Takes(variants, j, wanted, loosely)
      ensures FirstAccepting(variants, wanted, loosely).Some? && FirstAccepting(variants, wanted, loosely).value <= j
    {
      FirstAcceptingIsFirst(variants, wanted, loosely, j);
    }
    var strict := FirstAccepting(variants, wanted, false);
    if strict.Some? {
      assert Takes(variants, strict.value, wanted, false);
    }
  }

  /** What kind of member a bare object can end up in, as docs/values.md lists them: text and truth
      values in their own kind only, whole numbers in any number, other numbers in a floating-point
      member before any other, sequences in an array of scalars, a Value in a structure. */
  lemma {:induction false} PickedKind(variants: Members, obj: PyObj)
    requires PickUnionVariant(variants, obj).Ok?
    ensures var i := PickUnionVariant(variants, obj).value;
            var d := MemberAt(variants, i).value.desc;
            var isNumber := d.Scalar? && d.st != String && d.st != Boolean;
            && (obj.PyStr? ==> d == Scalar(String))
            && (obj.PyBool? ==> d == Scalar(Boolean))
            && (obj.PyInt? ==> isNumber)
            && (obj.PyFloat? ==> isNumber)
            && (obj.PyFloat? && (Offers(variants, Scalar(Float)) || Offers(variants, Scalar(Double))) ==>
                  d in {Scalar(Float), Scalar(Double)})
            && (obj.PyList? || (obj.PyArray? && obj.ndim > 0) ==> d.ScalarArray?)
            && (obj.PyList? && AllText(obj.items) && Offers(variants, ScalarArray(String)) ==> d.st == String)
            && (obj.PyList? && !AllText(obj.items) && Offers(variants, ScalarArray(Double)) ==> d.st == Double)
            && (obj.PyArray? && obj.ndim > 0 && Offers(variants, ScalarArray(obj.st)) ==> d.st == obj.st)
            && (obj.PyValue? ==> d.Structure?)
  {
    var wanted := InferDesc(obj).value;
    forall exact: FieldDesc | Offers(variants, exact) && Accepts(wanted, exact)
      ensures FirstAccepting(variants, wanted, false).Some?
    {
      var j :| MemberAt(variants, j).Some? && MemberAt(variants, j).value.Member? && MemberAt(variants, j).value.desc == exact;
      FirstAcceptingIsFirst(variants, wanted, false, j);
    }
  }

  ghost predicate Offers(variants: Members, d: FieldDesc) {
    exists j :: MemberAt(variants, j).Some? && MemberAt(variants, j).value.Member? && MemberAt(variants, j).value.desc == d
  }

  predicate AllText(items: seq<PyObj>) {
    items != [] && forall i | 0 <= i < |items| :: items[i].PyStr?
  }

  /** The type a variant carries for each kind of object; None leaves it empty. */
  lemma {:induction false} VariantCarries(conv: Conv, obj: PyObj)
    requires BuildVariant(conv, obj).Ok?
    ensures var f := BuildVariant(conv, obj).value;
            && f.PvVariant? && (f.desc.None? <==> obj.PyNone?) && (obj.PyNone? ==> f.value.PvNull?)
            && (obj.PyBool? ==> f.desc == Some(Scalar(Boolean)))
            && (obj.PyInt? ==> f.desc == Some(Scalar(Long)))
            && (obj.PyFloat? ==> f.desc == Some(Scalar(Double)))
            && (obj.PyStr? ==> f.desc == Some(Scalar(String)))
            && (obj.PyList? ==> f.desc == Some(ScalarArray(if AllText(obj.items) then String else Double)))
            && (obj.PyArray? ==> f.desc == Some(if obj.ndim == 0 then Scalar(obj.st) else ScalarArray(obj.st)))
            && (obj.PyValue? ==> f.desc == Some(Structure(obj.id, obj.members)))
            && !obj.PyDict? && !obj.PyTuple?
  {
  }

  /** docs/values.md promises that a `dict` given to a union picks a structure member, and that a
      variant takes one. It never does: no type is inferred from a dict, so the assignment raises before members are looked
      at, also for a union that has such a member. */
  lemma {:induction false} DictNeverSelects(conv: Conv, variants: Members, entries: seq<PyEntry>)
    ensures PickUnionVariant(variants, PyDict(entries)) == Err(TypeError)
    ensures BuildUnion(conv, variants, PyDict(entries)) == Err(TypeError)
    ensures BuildVariant(conv, PyDict(entries)) == Err(TypeError)
    ensures FirstStructure(Member("s", Structure("", NoMember), NoMember)) == Some(0)
  {
    assert InferDesc(PyDict(entries)) == Err(TypeError);
  }
}
