/**
 What `assign` of `src/pva/value.rs` stores and when it succeeds, said of the stored field and
 the Python object alone: element by element for arrays, leaf by leaf for structures.
 */
module AssignMeaning {
  import opened Common
  import opened PvDesc
  import opened PvValue
  import opened Assign
  import opened AssignExact

  /** A Python dict has a key once, wherever in the object it stands. */
  predicate DictsDeep(o: PyObj)
    decreases Height(o), 0
  {
    match o
    case PyDict(entries) => DistinctKeys(entries) && EntriesDeep(entries, Height(o) - 1)
    case PyValue(_, _, plain) => DistinctKeys(plain) && EntriesDeep(plain, Height(o) - 1)
    case PyTuple(items) => ItemsDeep(items, Height(o) - 1)
    case PyList(items) => ItemsDeep(items, Height(o) - 1)
    case PyArray(_, _, items) => ItemsDeep(items, Height(o) - 1)
    case _ => true
  }

  predicate EntriesDeep(es: seq<PyEntry>, h: nat)
    requires HeightEntries(es) <= h
    decreases h, 1, |es|
  {
    es != [] ==>
      assert HeightEntry(es[0]) <= h;
      DictsDeep(es[0].value) && EntriesDeep(es[1..], h)
  }

  predicate ItemsDeep(items: seq<PyObj>, h: nat)
    requires HeightAll(items) <= h
    decreases h, 1, |items|
  {
    items != [] ==> DictsDeep(items[0]) && ItemsDeep(items[1..], h)
  }

  lemma {:induction false} DeepItem(items: seq<PyObj>, h: nat, i: nat)
    requires HeightAll(items) <= h && ItemsDeep(items, h) && i < |items|
    ensures DictsDeep(items[i])
  {
    if i > 0 {
      DeepItem(items[1..], h, i - 1);
    }
  }

  lemma {:induction false} DeepEntry(es: seq<PyEntry>, h: nat, key: string)
    requires HeightEntries(es) <= h && EntriesDeep(es, h) && EntryOf(es, key).Some?
    ensures DictsDeep(EntryOf(es, key).value) && Height(EntryOf(es, key).value) <= HeightEntries(es)
  {
    if es[0].key != Some(key) {
      DeepEntry(es[1..], h, key);
    } else {
      assert HeightEntry(es[0]) <= HeightEntries(es);
    }
  }

  lemma {:induction false} DeepIsOk(o: PyObj)
    requires DictsDeep(o)
    ensures DictsOk(o)
    decreases Height(o), 0
  {
    if o.PyDict? {
      DeepEntriesOk(o.entries, Height(o) - 1);
    } else if o.PyValue? {
      DeepEntriesOk(o.plain, Height(o) - 1);
    }
  }

  lemma {:induction false} DeepEntriesOk(es: seq<PyEntry>, h: nat)
    requires HeightEntries(es) <= h && EntriesDeep(es, h)
    ensures EntriesOk(es, h)
    decreases h, 1, |es|
  {
    if es != [] {
      assert HeightEntry(es[0]) <= h;
      DeepIsOk(es[0].value);
      DeepEntriesOk(es[1..], h);
    }
  }

  lemma {:induction false} EntryIsLower(es: seq<PyEntry>, key: string)
    requires EntryOf(es, key).Some?
    ensures Height(EntryOf(es, key).value) <= HeightEntries(es)
  {
    if es[0].key != Some(key) {
      EntryIsLower(es[1..], key);
    } else {
      assert HeightEntry(es[0]) <= HeightEntries(es);
    }
  }

  lemma {:induction false} AskedIsLower(o: PyObj, segs: seq<string>)
    requires Asked(o, segs).Some?
    ensures Height(Asked(o, segs).value) + (if segs == [] then 0 else 1) <= Height(o)
    decreases |segs|
  {
    if segs != [] {
      EntryIsLower(Pairs(o), segs[0]);
      AskedIsLower(EntryOf(Pairs(o), segs[0]).value, segs[1..]);
    }
  }

  lemma {:induction false} AskedIsDeep(o: PyObj, segs: seq<string>)
    requires DictsDeep(o) && Asked(o, segs).Some?
    ensures DictsDeep(Asked(o, segs).value)
    decreases |segs|
  {
    if segs != [] {
      DeepEntry(Pairs(o), Height(o) - 1, segs[0]);
      AskedIsDeep(EntryOf(Pairs(o), segs[0]).value, segs[1..]);
    }
  }

  lemma {:induction false} IteratedIsDeep(o: PyObj, i: nat)
    requires DictsDeep(o) && TryIter(o).Ok? && i < |TryIter(o).value|
    ensures DictsDeep(TryIter(o).value[i]) && Height(TryIter(o).value[i]) <= Height(o)
  {
    var items := TryIter(o).value;
    HeightAt(items, i);
    match o
    case PyTuple(_) => DeepItem(items, Height(o) - 1, i);
    case PyList(_) => DeepItem(items, Height(o) - 1, i);
    case PyArray(_, _, _) => DeepItem(items, Height(o) - 1, i);
    case PyDict(es) => KeyIsText(es, i);
    case PyValue(_, _, es) => KeyIsText(es, i);
    case PyStr(s) => CharIsText(s, i);
  }

  lemma {:induction false} KeyIsText(es: seq<PyEntry>, i: nat)
    requires i < |Keys(es)|
    ensures Keys(es)[i].PyStr? || Keys(es)[i].PyOther?
  {
    if i > 0 {
      KeyIsText(es[1..], i - 1);
    }
  }

  lemma {:induction false} CharIsText(s: string, i: nat)
    requires i < |Chars(s)|
    ensures Chars(s)[i].PyStr?
  {
    if i > 0 {
      CharIsText(s[1..], i - 1);
    }
  }

  // ---- Which member of a union ----

  /** The first member of that name. */
  predicate IsNamed(variants: Members, i: nat, name: string) {
    && MemberAt(variants, i).Some? && MemberAt(variants, i).value.Member? && MemberAt(variants, i).value.name == name
    && forall j | 0 <= j < i :: MemberAt(variants, j).Some? && MemberAt(variants, j).value.Member?
                                && MemberAt(variants, j).value.name != name
  }

  /** The member a bare object picks: the first to take its type strictly, else the first loosely. */
  ghost predicate IsPicked(variants: Members, i: nat, o: PyObj) {
    && InferDesc(o).Ok?
    && var wanted := InferDesc(o).value;
       if exists j :: Takes(variants, j, wanted, false)
       then Takes(variants, i, wanted, false) && forall j :: Takes(variants, j, wanted, false) ==> i <= j
       else Takes(variants, i, wanted, true) && forall j :: Takes(variants, j, wanted, true) ==> i <= j
  }

  lemma {:induction false} NamedIff(variants: Members, i: nat, name: string)
    ensures IsNamed(variants, i, name) <==> IndexOf(variants, name) == Some(i)
  {
    if variants.Member? && variants.name != name && i > 0 {
      NamedIff(variants.rest, i - 1, name);
      assert forall j | 1 <= j < i :: MemberAt(variants, j) == MemberAt(variants.rest, j - 1);
      assert forall j | 0 <= j < i - 1 :: MemberAt(variants.rest, j) == MemberAt(variants, j + 1);
    } else if variants.Member? && i > 0 {
      assert MemberAt(variants, 0).value.name == name;
    }
  }

  lemma {:induction false} PickedIff(variants: Members, i: nat, o: PyObj)
    ensures IsPicked(variants, i, o) <==> PickUnionVariant(variants, o) == Ok(i)
  {
    PickSucceedsIff(variants, o);
    if PickUnionVariant(variants, o).Ok? {
      PickedIsFirst(variants, o);
    }
  }

  // ---- What a field holds ----

  /** `f`, a field of type `d`, holds what `o` stands for. */
  ghost predicate HoldsLeaf(conv: Conv, d: FieldDesc, f: PvField, o: PyObj)
    requires !d.Structure?
    decreases Height(o), Stage(d), 0
  {
    match d
    case Scalar(st) => conv.scalar(o, st).Ok? && f == PvScalar(ScalarValue(st, conv.scalar(o, st).value))
    case ScalarArray(st) => conv.elems(o, st).Ok? && f == PvScalarArray(st, conv.elems(o, st).value)
    case Union(_, variants) =>
      if o.PyNone? then f == PvUnion(-1, "", PvNull)
      else
        && f.PvUnion? && f.selector >= 0
        && MemberAt(variants, f.selector).Some? && MemberAt(variants, f.selector).value.Member?
        && f.name == MemberAt(variants, f.selector).value.name
        && (if o.PyTuple? then
              && |o.items| == 2 && o.items[0] == PyStr(f.name) && IsNamed(variants, f.selector, f.name)
              && (HeightAt(o.items, 1); HoldsFresh(conv, MemberAt(variants, f.selector).value.desc, f.value, o.items[1]))
            else
              && IsPicked(variants, f.selector, o)
              && HoldsFresh(conv, MemberAt(variants, f.selector).value.desc, f.value, o))
    case Variant =>
      && f.PvVariant? && InferDesc(o).Ok?
      && (match InferDesc(o).value
          case None => f == PvVariant(None, PvNull)
          case Some(inferred) => f.desc == Some(inferred) && HoldsFresh(conv, inferred, f.value, o))
    case StructureArray(id, fields) =>
      && f.PvStructureArray? && TryIter(o).Ok? && |f.items| == |TryIter(o).value|
      && forall i | 0 <= i < |f.items| ::
           var item := TryIter(o).value[i];
           if item.PyNone? then f.items[i].PvNull?
           else (HeightAt(TryIter(o).value, i); HoldsFresh(conv, Structure(id, fields), f.items[i], item))
    case UnionArray(id, variants) =>
      && f.PvUnionArray? && TryIter(o).Ok? && |f.items| == |TryIter(o).value|
      && forall i | 0 <= i < |f.items| ::
           var item := TryIter(o).value[i];
           if item.PyNone? then f.items[i].PvNull?
           else (HeightAt(TryIter(o).value, i); HoldsLeaf(conv, Union(id, variants), f.items[i], item))
    case VariantArray =>
      && f.PvVariantArray? && TryIter(o).Ok? && |f.items| == |TryIter(o).value|
      && forall i | 0 <= i < |f.items| ::
           var item := TryIter(o).value[i];
           if item.PyNone? then f.items[i].PvNull?
           else (HeightAt(TryIter(o).value, i); HoldsLeaf(conv, Variant, f.items[i], item))
  }

  /** `f` is a fresh value of type `d` into which `o` was put: the leaves `o` names hold what it has
      for them, the others are as new. */
  ghost predicate HoldsFresh(conv: Conv, d: FieldDesc, f: PvField, o: PyObj)
    decreases Height(o), Stage(d), 1
  {
    && Conforms(d, f)
    && forall segs | IsLeaf(d, segs) ::
         match Asked(o, segs)
         case None => FieldAt(f, segs) == FieldAt(DefaultValue(d), segs)
         case Some(x) =>
           && FieldAt(f, segs).Some?
           && (AskedIsLower(o, segs); HoldsLeaf(conv, DescAt(d, segs).value, FieldAt(f, segs).value, x))
  }

  /** Whatever `assign` turns into a leaf is what the object stands for. */
  lemma {:induction false} LeafHolds(conv: Conv, d: FieldDesc, o: PyObj)
    requires !d.Structure? && DictsDeep(o) && LeafValue(conv, d, o).Ok?
    ensures HoldsLeaf(conv, d, LeafValue(conv, d, o).value, o)
    decreases Height(o), Stage(d), 0
  {
    match d
    case Scalar(_) =>
    case ScalarArray(_) =>
    case Union(_, variants) =>
      if o.PyTuple? {
        PairHolds(conv, d.id, variants, o);
      } else if !o.PyNone? {
        BareHolds(conv, d.id, variants, o);
      }
    case Variant =>
      if InferDesc(o).value.Some? {
        BuiltHolds(conv, InferDesc(o).value.value, o);
      }
    case StructureArray(_, _) | UnionArray(_, _) | VariantArray =>
      var items := TryIter(o).value;
      forall i | 0 <= i < |items| ensures DictsDeep(items[i]) {
        IteratedIsDeep(o, i);
      }
      ItemsHold(conv, d, items, Height(o));
  }

  lemma {:induction false} PairHolds(conv: Conv, id: string, variants: Members, o: PyObj)
    requires o.PyTuple? && DictsDeep(o) && BuildUnion(conv, variants, o).Ok?
    ensures HoldsLeaf(conv, Union(id, variants), BuildUnion(conv, variants, o).value, o)
    decreases Height(o), 2, 1
  {
    var i := IndexOf(variants, o.items[0].s).value;
    NamedIff(variants, i, o.items[0].s);
    HeightAt(o.items, 1);
    DeepItem(o.items, Height(o) - 1, 1);
    SelectedIsBuilt(conv, variants, i, o.items[1], Height(o) - 1, 6);
    BuiltHolds(conv, MemberAt(variants, i).value.desc, o.items[1]);
  }

  lemma {:induction false} BareHolds(conv: Conv, id: string, variants: Members, o: PyObj)
    requires !o.PyTuple? && !o.PyNone? && DictsDeep(o) && BuildUnion(conv, variants, o).Ok?
    ensures HoldsLeaf(conv, Union(id, variants), BuildUnion(conv, variants, o).value, o)
    decreases Height(o), 2, 1
  {
    var i := PickUnionVariant(variants, o).value;
    PickedIff(variants, i, o);
    SelectedIsBuilt(conv, variants, i, o, Height(o), 1);
    BuiltHolds(conv, MemberAt(variants, i).value.desc, o);
  }

  lemma SelectedIsBuilt(conv: Conv, variants: Members, i: nat, o: PyObj, h: nat, stage: nat)
    requires MemberAt(variants, i).Some? && MemberAt(variants, i).value.Member?
    requires Height(o) <= h && Stage(MemberAt(variants, i).value.desc) <= stage
    ensures var m := MemberAt(variants, i).value;
            var r := AssignTo(conv, m.desc, DefaultValue(m.desc), o, {}, 0);
            BuildSelected(conv, variants, i, o, h, stage)
            == if r.error.Some? then Err(r.error.value) else Ok(PvUnion(i, m.name, r.target))
  {
  }

  lemma {:induction false} BuiltHolds(conv: Conv, d: FieldDesc, o: PyObj)
    requires DictsDeep(o) && AssignTo(conv, d, DefaultValue(d), o, {}, 0).error.None?
    ensures HoldsFresh(conv, d, AssignTo(conv, d, DefaultValue(d), o, {}, 0).target, o)
    decreases Height(o), Stage(d), 1
  {
    var f := AssignTo(conv, d, DefaultValue(d), o, {}, 0).target;
    AssignKeeps(conv, d, DefaultValue(d), o, {}, 0);
    DeepIsOk(o);
    forall segs | IsLeaf(d, segs)
      ensures match Asked(o, segs)
              case None => FieldAt(f, segs) == FieldAt(DefaultValue(d), segs)
              case Some(x) =>
                && FieldAt(f, segs).Some?
                && (AskedIsLower(o, segs); HoldsLeaf(conv, DescAt(d, segs).value, FieldAt(f, segs).value, x))
    {
      AssignWrites(conv, d, DefaultValue(d), o, {}, 0, segs);
      if Asked(o, segs).Some? {
        AskedIsLower(o, segs);
        AskedIsDeep(o, segs);
        LeafHolds(conv, DescAt(d, segs).value, Asked(o, segs).value);
      }
    }
  }

  /** One element holds one item. */
  ghost predicate ElementHolds(conv: Conv, d: FieldDesc, f: PvField, item: PyObj)
    requires Stage(d) == 5
  {
    if item.PyNone? then f.PvNull?
    else if d.StructureArray? then HoldsFresh(conv, Structure(d.id, d.fields), f, item)
    else if d.UnionArray? then HoldsLeaf(conv, Union(d.id, d.variants), f, item)
    else HoldsLeaf(conv, Variant, f, item)
  }

  lemma {:induction false} ItemHolds(conv: Conv, d: FieldDesc, item: PyObj, h: nat)
    requires Height(item) <= h && Stage(d) == 5 && DictsDeep(item) && BuildItem(conv, d, item, h).Ok?
    ensures ElementHolds(conv, d, BuildItem(conv, d, item, h).value, item)
    decreases h, 4, 0
  {
    if !item.PyNone? {
      if d.StructureArray? {
        BuiltHolds(conv, Structure(d.id, d.fields), item);
      } else if d.UnionArray? {
        LeafHolds(conv, Union(d.id, d.variants), item);
      } else {
        LeafHolds(conv, Variant, item);
      }
    }
  }

  lemma {:induction false} ItemsHold(conv: Conv, d: FieldDesc, items: seq<PyObj>, h: nat)
    requires HeightAll(items) <= h && Stage(d) == 5 && BuildItems(conv, d, items, h).Ok?
    requires forall i | 0 <= i < |items| :: DictsDeep(items[i])
    ensures var built := BuildItems(conv, d, items, h).value;
            |built| == |items| && forall i | 0 <= i < |items| :: ElementHolds(conv, d, built[i], items[i])
    decreases h, 4, |items|
  {
    if items != [] {
      ItemHolds(conv, d, items[0], h);
      ItemsHold(conv, d, items[1..], h);
      var built := BuildItems(conv, d, items, h).value;
      assert built == [BuildItem(conv, d, items[0], h).value] + BuildItems(conv, d, items[1..], h).value;
      forall i | 0 <= i < |items| ensures ElementHolds(conv, d, built[i], items[i]) {
        assert i > 0 ==> items[i] == items[1..][i - 1];
      }
    }
  }

  /** A successful assignment, said of the stored value and the object: the leaves the object names
      hold what it has for them, arrays element by element, and are marked; the others are untouched. */
  lemma {:induction false} AssignMeans(
    conv: Conv, d: FieldDesc, target: PvField, o: PyObj, marks: set<nat>, bit: nat, segs: seq<string>)
    requires Conforms(d, target) && DictsDeep(o) && IsLeaf(d, segs)
    requires AssignTo(conv, d, target, o, marks, bit).error.None?
    ensures var out := AssignTo(conv, d, target, o, marks, bit);
            match Asked(o, segs)
            case None =>
              && FieldAt(out.target, segs) == FieldAt(target, segs)
              && (MarkedAt(d, bit, out.marks, segs) <==> MarkedAt(d, bit, marks, segs))
            case Some(x) =>
              && FieldAt(out.target, segs).Some?
              && HoldsLeaf(conv, DescAt(d, segs).value, FieldAt(out.target, segs).value, x)
              && MarkedAt(d, bit, out.marks, segs)
  {
    DeepIsOk(o);
    AssignWrites(conv, d, target, o, marks, bit, segs);
    if Asked(o, segs).Some? {
      AskedIsDeep(o, segs);
      LeafHolds(conv, DescAt(d, segs).value, Asked(o, segs).value);
    }
  }

  // ---- When an assignment succeeds ----

  /** `o` can be assigned to a field of type `d`. */
  ghost predicate Can(conv: Conv, d: FieldDesc, o: PyObj)
    decreases Height(o), Stage(d), 0
  {
    match d
    case Scalar(st) => conv.scalar(o, st).Ok?
    case ScalarArray(st) => conv.elems(o, st).Ok?
    case Structure(_, fields) =>
      && (o.PyDict? || o.PyValue?)
      && forall i | 0 <= i < |Pairs(o)| :: (PairIsLower(Pairs(o), i); PairCan(conv, fields, Pairs(o)[i]))
    case Union(_, variants) =>
      if o.PyNone? then true
      else if o.PyTuple? then
        && |o.items| == 2 && o.items[0].PyStr?
        && exists i | IsNamed(variants, i, o.items[0].s) ::
             (HeightAt(o.items, 1); Can(conv, MemberAt(variants, i).value.desc, o.items[1]))
      else exists i | IsPicked(variants, i, o) :: Can(conv, MemberAt(variants, i).value.desc, o)
    case Variant => InferDesc(o).Ok? && (InferDesc(o).value.Some? ==> Can(conv, InferDesc(o).value.value, o))
    case StructureArray(_, _) | UnionArray(_, _) | VariantArray =>
      TryIter(o).Ok? && forall i | 0 <= i < |TryIter(o).value| ::
        (HeightAt(TryIter(o).value, i); ItemCan(conv, d, TryIter(o).value[i]))
  }

  lemma {:induction false} PairIsLower(es: seq<PyEntry>, i: nat)
    requires i < |es|
    ensures Height(es[i].value) <= HeightEntries(es)
  {
    if i > 0 {
      PairIsLower(es[1..], i - 1);
    } else {
      assert HeightEntry(es[0]) <= HeightEntries(es);
    }
  }

  /** The pair names a member and its value can be assigned to it. */
  ghost predicate PairCan(conv: Conv, ms: Members, e: PyEntry)
    decreases Height(e.value), 6, 0
  {
    e.key.Some? && Lookup(ms, e.key.value).Some? && Can(conv, Lookup(ms, e.key.value).value, e.value)
  }

  ghost predicate ItemCan(conv: Conv, d: FieldDesc, item: PyObj)
    requires Stage(d) == 5
    decreases Height(item), 4, 0
  {
    || item.PyNone?
    || (if d.StructureArray? then Can(conv, Structure(d.id, d.fields), item)
        else if d.UnionArray? then Can(conv, Union(d.id, d.variants), item)
        else Can(conv, Variant, item))
  }

  /** `assign` succeeds exactly on what can be assigned, whatever the target held. */
  lemma {:induction false} SucceedsIff(conv: Conv, d: FieldDesc, target: PvField, o: PyObj, marks: set<nat>, bit: nat)
    requires Conforms(d, target)
    ensures AssignTo(conv, d, target, o, marks, bit).error.None? <==> Can(conv, d, o)
    decreases Height(o), Stage(d), 1
  {
    if !d.Structure? {
      LeafSucceedsIff(conv, d, o);
    } else if o.PyDict? || o.PyValue? {
      var es := Pairs(o);
      EntriesSucceedIff(conv, d.fields, target.fields, es, marks, bit + 1, HeightEntries(es));
      assert Can(conv, d, o) <==> forall i | 0 <= i < |es| :: PairCan(conv, d.fields, es[i]);
    }
  }

  lemma {:induction false} EntriesSucceedIff(
    conv: Conv, ms: Members, fs: Fields, es: seq<PyEntry>, marks: set<nat>, bit: nat, h: nat)
    requires FieldsConform(ms, fs) && HeightEntries(es) <= h
    ensures AssignEntries(conv, ms, fs, es, marks, bit, h).error.None?
            <==> forall i | 0 <= i < |es| :: PairCan(conv, ms, es[i])
    decreases h, 6, |es|
  {
    if es != [] {
      if es[0].key.Some? && Lookup(ms, es[0].key.value).Some? {
        var key := es[0].key.value;
        assert HeightEntry(es[0]) <= h;
        MemberField(ms, fs, key);
        var kdesc, before, koff := Lookup(ms, key).value, GetField(fs, key).value, bit + OffsetOf(ms, key);
        SucceedsIff(conv, kdesc, before, es[0].value, marks, koff);
        var out := AssignTo(conv, kdesc, before, es[0].value, marks, koff);
        AssignKeeps(conv, kdesc, before, es[0].value, marks, koff);
        SetFieldKeeps(ms, fs, key, out.target);
        EntriesSucceedIff(conv, ms, SetField(fs, key, out.target), es[1..], out.marks, bit, h);
        assert (forall i | 0 <= i < |es| :: PairCan(conv, ms, es[i]))
          <==> PairCan(conv, ms, es[0]) && forall i | 0 <= i < |es[1..]| :: PairCan(conv, ms, es[1..][i]) by {
          assert forall i | 1 <= i < |es| :: es[i] == es[1..][i - 1];
        }
      } else {
        assert !PairCan(conv, ms, es[0]);
      }
    }
  }

  lemma {:induction false} LeafSucceedsIff(conv: Conv, d: FieldDesc, o: PyObj)
    requires !d.Structure?
    ensures LeafValue(conv, d, o).Ok? <==> Can(conv, d, o)
    decreases Height(o), Stage(d), 0
  {
    match d
    case Scalar(_) =>
    case ScalarArray(_) =>
    case Union(_, variants) =>
      if o.PyTuple? {
        PairSucceedsIff(conv, d.id, variants, o);
      } else if !o.PyNone? {
        BareSucceedsIff(conv, d.id, variants, o);
      }
    case Variant =>
      if InferDesc(o).Ok? && InferDesc(o).value.Some? {
        var inferred := InferDesc(o).value.value;
        SucceedsIff(conv, inferred, DefaultValue(inferred), o, {}, 0);
      }
    case StructureArray(_, _) | UnionArray(_, _) | VariantArray =>
      ArraySucceedsIff(conv, d, o);
  }

  lemma {:induction false} ArraySucceedsIff(conv: Conv, d: FieldDesc, o: PyObj)
    requires Stage(d) == 5
    ensures LeafValue(conv, d, o).Ok? <==> Can(conv, d, o)
    decreases Height(o), 4, if TryIter(o).Ok? then |TryIter(o).value| + 1 else 0
  {
    if TryIter(o).Ok? {
      ItemsSucceedIff(conv, d, TryIter(o).value, Height(o));
    }
  }

  lemma {:induction false} PairSucceedsIff(conv: Conv, id: string, variants: Members, o: PyObj)
    requires o.PyTuple?
    ensures BuildUnion(conv, variants, o).Ok? <==> Can(conv, Union(id, variants), o)
    decreases Height(o), 2, 1
  {
    if |o.items| == 2 && o.items[0].PyStr? {
      HeightAt(o.items, 1);
      forall i: nat ensures IsNamed(variants, i, o.items[0].s) <==> IndexOf(variants, o.items[0].s) == Some(i) {
        NamedIff(variants, i, o.items[0].s);
      }
      if IndexOf(variants, o.items[0].s).Some? {
        var i := IndexOf(variants, o.items[0].s).value;
        var m := MemberAt(variants, i).value;
        SelectedIsBuilt(conv, variants, i, o.items[1], Height(o) - 1, 6);
        SucceedsIff(conv, m.desc, DefaultValue(m.desc), o.items[1], {}, 0);
      }
    }
  }

  /** A bare object and the one member it picks. */
  lemma {:induction false} BareCan(conv: Conv, id: string, variants: Members, o: PyObj)
    requires !o.PyTuple? && !o.PyNone?
    ensures Can(conv, Union(id, variants), o)
            <==> && PickUnionVariant(variants, o).Ok?
                 && Can(conv, MemberAt(variants, PickUnionVariant(variants, o).value).value.desc, o)
  {
    forall i: nat ensures IsPicked(variants, i, o) <==> PickUnionVariant(variants, o) == Ok(i) {
      PickedIff(variants, i, o);
    }
  }

  lemma {:induction false} BareSucceedsIff(conv: Conv, id: string, variants: Members, o: PyObj)
    requires !o.PyTuple? && !o.PyNone?
    ensures BuildUnion(conv, variants, o).Ok? <==> Can(conv, Union(id, variants), o)
    decreases Height(o), 2, 1
  {
    BareCan(conv, id, variants, o);
    if PickUnionVariant(variants, o).Ok? {
      var i := PickUnionVariant(variants, o).value;
      var m := MemberAt(variants, i).value;
      SelectedIsBuilt(conv, variants, i, o, Height(o), 1);
      SucceedsIff(conv, m.desc, DefaultValue(m.desc), o, {}, 0);
    }
  }

  lemma {:induction false} ItemSucceedsIff(conv: Conv, d: FieldDesc, item: PyObj, h: nat)
    requires Height(item) <= h && Stage(d) == 5
    ensures BuildItem(conv, d, item, h).Ok? <==> ItemCan(conv, d, item)
    decreases h, 4, 0
  {
    if !item.PyNone? {
      if d.StructureArray? {
        var elem := Structure(d.id, d.fields);
        SucceedsIff(conv, elem, DefaultValue(elem), item, {}, 0);
      } else if d.UnionArray? {
        LeafSucceedsIff(conv, Union(d.id, d.variants), item);
      } else {
        LeafSucceedsIff(conv, Variant, item);
      }
    }
  }

  lemma {:induction false} ItemsSucceedIff(conv: Conv, d: FieldDesc, items: seq<PyObj>, h: nat)
    requires HeightAll(items) <= h && Stage(d) == 5
    ensures BuildItems(conv, d, items, h).Ok? <==> forall i | 0 <= i < |items| :: ItemCan(conv, d, items[i])
    decreases h, 4, |items|
  {
    if items != [] {
      ItemSucceedsIff(conv, d, items[0], h);
      ItemsSucceedIff(conv, d, items[1..], h);
      assert (forall i | 0 <= i < |items| :: ItemCan(conv, d, items[i]))
        <==> ItemCan(conv, d, items[0]) && forall i | 0 <= i < |items[1..]| :: ItemCan(conv, d, items[1..][i]) by {
        assert forall i | 1 <= i < |items| :: items[i] == items[1..][i - 1];
      }
    }
  }
}
