/**
 What a successful `assign` of `src/pva/value.rs` writes: exactly the leaves the object
 names, each converted to its own type, and nothing else.
 */
module AssignExact {
  import opened Common
  import opened PvDesc
  import opened PvValue
  import opened Assign

  /** A Python dict has a key once. */
  predicate DistinctKeys(es: seq<PyEntry>) {
    forall i, j | 0 <= i < j < |es| :: es[i].key.Some? ==> es[i].key != es[j].key
  }

  predicate DictsOk(obj: PyObj)
    decreases Height(obj), 0
  {
    match obj
    case PyDict(entries) => DistinctKeys(entries) && EntriesOk(entries, Height(obj) - 1)
    case PyValue(_, _, plain) => DistinctKeys(plain) && EntriesOk(plain, Height(obj) - 1)
    case _ => true
  }

  predicate EntriesOk(es: seq<PyEntry>, h: nat)
    requires HeightEntries(es) <= h
    decreases h, 1, |es|
  {
    es != [] ==>
      assert HeightEntry(es[0]) <= h;
      DictsOk(es[0].value) && EntriesOk(es[1..], h)
  }

  function EntryOf(es: seq<PyEntry>, key: string): Option<PyObj> {
    if es == [] then None
    else if es[0].key == Some(key) then Some(es[0].value)
    else EntryOf(es[1..], key)
  }

  /** What the object has for the field at this path, through nested dicts. */
  function Asked(obj: PyObj, segs: seq<string>): Option<PyObj>
    decreases |segs|
  {
    if segs == [] then Some(obj)
    else if !obj.PyDict? && !obj.PyValue? then None
    else
      match EntryOf(Pairs(obj), segs[0])
      case None => None
      case Some(o) => Asked(o, segs[1..])
  }

  /** Leaf `segs` holds what was asked for and is marked, or was not asked for and is untouched. */
  predicate Written(
    conv: Conv, d: FieldDesc, before: PvField, marks: set<nat>, bit: nat, obj: PyObj, after: PvField, marks': set<nat>, segs: seq<string>)
    requires IsLeaf(d, segs)
  {
    match Asked(obj, segs)
    case None =>
      && FieldAt(after, segs) == FieldAt(before, segs)
      && (MarkedAt(d, bit, marks', segs) <==> MarkedAt(d, bit, marks, segs))
    case Some(o) =>
      var v := LeafValue(conv, DescAt(d, segs).value, o);
      v.Ok? && FieldAt(after, segs) == Some(v.value) && MarkedAt(d, bit, marks', segs)
  }

  /** Bits set in one member's span are not a leaf's of another member. */
  lemma {:induction false} OtherMemberUnmarked(
    ms: Members, bit: nat, key: string, name: string, segs: seq<string>, marks: set<nat>, marks': set<nat>)
    requires Lookup(ms, key).Some? && Lookup(ms, name).Some? && key != name && IsLeaf(Lookup(ms, name).value, segs)
    requires marks <= marks' && marks' - marks <= LeafBits(Lookup(ms, key).value, bit + OffsetOf(ms, key))
    ensures var child := Lookup(ms, name).value;
            MarkedAt(child, bit + OffsetOf(ms, name), marks', segs) <==> MarkedAt(child, bit + OffsetOf(ms, name), marks, segs)
  {
    var child := Lookup(ms, name).value;
    NodeSpan(child, segs);
    SiblingSpansDisjoint(ms, key, name);
    var b := bit + OffsetOf(ms, name) + BitForPath(child, segs).value;
    if b in LeafBits(Lookup(ms, key).value, bit + OffsetOf(ms, key)) {
      LeafBitsInSpan(Lookup(ms, key).value, bit + OffsetOf(ms, key), b);
    }
  }

  lemma {:induction false} EntryOfRest(es: seq<PyEntry>, name: string)
    requires DistinctKeys(es) && es != [] && es[0].key == Some(name)
    ensures EntryOf(es[1..], name) == None
  {
    if EntryOf(es[1..], name).Some? {
      var i := EntryIndex(es[1..], name);
      assert false;
    }
  }

  lemma {:induction false} EntryIndex(es: seq<PyEntry>, name: string) returns (i: nat)
    requires EntryOf(es, name).Some?
    ensures i < |es| && es[i].key == Some(name)
  {
    if es[0].key == Some(name) {
      i := 0;
    } else {
      i := EntryIndex(es[1..], name);
      i := i + 1;
    }
  }

  /** The loop over a dict, for one leaf of one member. */
  lemma {:induction false} EntriesWrite(
    conv: Conv, ms: Members, fs: Fields, es: seq<PyEntry>, marks: set<nat>, bit: nat, h: nat, name: string, segs: seq<string>)
    requires FieldsConform(ms, fs) && HeightEntries(es) <= h && DistinctKeys(es) && EntriesOk(es, h)
    requires Lookup(ms, name).Some? && IsLeaf(Lookup(ms, name).value, segs) && GetField(fs, name).Some?
    requires AssignEntries(conv, ms, fs, es, marks, bit, h).error.None?
    ensures var r := AssignEntries(conv, ms, fs, es, marks, bit, h);
            var child, off := Lookup(ms, name).value, bit + OffsetOf(ms, name);
            && GetField(r.fields, name).Some?
            && match EntryOf(es, name)
               case None =>
                 && GetField(r.fields, name) == GetField(fs, name)
                 && (MarkedAt(child, off, r.marks, segs) <==> MarkedAt(child, off, marks, segs))
               case Some(o) =>
                 Written(conv, child, GetField(fs, name).value, marks, off, o, GetField(r.fields, name).value, r.marks, segs)
    decreases |segs|, |es| + 1
  {
    if es != [] {
      var key := es[0].key.value;
      var kdesc, koff := Lookup(ms, key).value, bit + OffsetOf(ms, key);
      assert HeightEntry(es[0]) <= h;
      MemberField(ms, fs, key);
      var out := AssignTo(conv, kdesc, GetField(fs, key).value, es[0].value, marks, koff);
      AssignKeeps(conv, kdesc, GetField(fs, key).value, es[0].value, marks, koff);
      SetFieldKeeps(ms, fs, key, out.target);
      var fs' := SetField(fs, key, out.target);
      assert DistinctKeys(es[1..]) by {
        assert forall i | 0 <= i < |es| - 1 :: es[1..][i] == es[i + 1];
      }
      if key == name {
        AssignWrites(conv, kdesc, GetField(fs, key).value, es[0].value, marks, koff, segs);
        EntryOfRest(es, name);
      } else {
        OtherMemberUnmarked(ms, bit, key, name, segs, marks, out.marks);
      }
      EntriesWrite(conv, ms, fs', es[1..], out.marks, bit, h, name, segs);
    }
  }

  /** A successful assignment writes the leaves the object names, with the values they convert to,
      and marks them; every other leaf keeps its value and its mark. */
  lemma {:induction false} AssignWrites(
    conv: Conv, d: FieldDesc, target: PvField, obj: PyObj, marks: set<nat>, bit: nat, segs: seq<string>)
    requires Conforms(d, target) && DictsOk(obj) && IsLeaf(d, segs)
    requires AssignTo(conv, d, target, obj, marks, bit).error.None?
    ensures var out := AssignTo(conv, d, target, obj, marks, bit);
            Written(conv, d, target, marks, bit, obj, out.target, out.marks, segs)
    decreases |segs|, 0
  {
    if segs != [] {
      var name := segs[0];
      MemberField(d.fields, target.fields, name);
      EntriesWrite(conv, d.fields, target.fields, Pairs(obj), marks, bit + 1, HeightEntries(Pairs(obj)), name, segs[1..]);
    }
  }

  lemma {:induction false} HeightOfPrefix(es: seq<PyEntry>, k: nat)
    requires k <= |es|
    ensures HeightEntries(es[..k]) <= HeightEntries(es)
  {
    if k > 0 {
      assert es[..k][1..] == es[1..][..k - 1];
      HeightOfPrefix(es[1..], k - 1);
    }
    HeightPositive(es);
  }

  lemma HeightPositive(es: seq<PyEntry>)
    ensures HeightEntries(es) >= 1
  {
  }

  /** A dict that fails does so at one pair: the ones before it were assigned and stay, the ones
      behind it are not looked at. */
  lemma {:induction false} FailureStopsThere(
    conv: Conv, ms: Members, fs: Fields, es: seq<PyEntry>, marks: set<nat>, bit: nat, h: nat) returns (k: nat)
    requires HeightEntries(es) <= h && AssignEntries(conv, ms, fs, es, marks, bit, h).error.Some?
    ensures k < |es| && HeightEntries(es[..k]) <= h && HeightEntries(es[..k + 1]) <= h
    ensures AssignEntries(conv, ms, fs, es[..k], marks, bit, h).error.None?
    ensures AssignEntries(conv, ms, fs, es, marks, bit, h) == AssignEntries(conv, ms, fs, es[..k + 1], marks, bit, h)
    decreases |es|
  {
    k := 0;
    assert es[..1] == [es[0]] && es[..1][1..] == [];
    if es[0].key.Some? && Lookup(ms, es[0].key.value).Some? && GetField(fs, es[0].key.value).Some? {
      var key := es[0].key.value;
      assert HeightEntry(es[0]) <= h;
      var out := AssignTo(conv, Lookup(ms, key).value, GetField(fs, key).value, es[0].value, marks, bit + OffsetOf(ms, key));
      if out.error.None? {
        var rest := FailureStopsThere(conv, ms, SetField(fs, key, out.target), es[1..], out.marks, bit, h);
        k := rest + 1;
        assert es[..k][1..] == es[1..][..rest] && es[..k + 1][1..] == es[1..][..rest + 1];
      }
    }
    HeightOfPrefix(es, k);
    HeightOfPrefix(es, k + 1);
  }

  /** What a union is given: the second half of a (member, value) pair, or the object itself. */
  function Payload(obj: PyObj): PyObj {
    if obj.PyTuple? && |obj.items| == 2 then obj.items[1] else obj
  }

  /** A union built from an object holds a fresh value of one member with the payload's leaves
      written and defaults elsewhere; a pair selects the member it names. */
  lemma {:induction false} UnionHoldsThePayload(conv: Conv, variants: Members, obj: PyObj, segs: seq<string>)
    requires !obj.PyNone? && DictsOk(Payload(obj)) && BuildUnion(conv, variants, obj).Ok?
    ensures var u := BuildUnion(conv, variants, obj).value;
            && u.PvUnion? && u.selector >= 0
            && MemberAt(variants, u.selector).Some? && MemberAt(variants, u.selector).value.Member?
            && (obj.PyTuple? ==> obj.items[0] == PyStr(u.name))
            && var m := MemberAt(variants, u.selector).value;
            && u.name == m.name
            && (IsLeaf(m.desc, segs) ==>
                  match Asked(Payload(obj), segs)
                  case None => FieldAt(u.value, segs) == FieldAt(DefaultValue(m.desc), segs)
                  case Some(o) =>
                    var v := LeafValue(conv, DescAt(m.desc, segs).value, o);
                    v.Ok? && FieldAt(u.value, segs) == Some(v.value))
  {
    var i := if obj.PyTuple? then IndexOf(variants, obj.items[0].s).value else PickUnionVariant(variants, obj).value;
    var m := MemberAt(variants, i).value;
    if IsLeaf(m.desc, segs) {
      AssignWrites(conv, m.desc, DefaultValue(m.desc), Payload(obj), {}, 0, segs);
    }
  }
}
