/**
 `Value` of `src/pva/value.rs`: a view is a shared root plus a dotted prefix, and
 every write through a view goes to the root's value and marks.
 */
module ValueView {
  import opened Common
  import opened DottedPath
  import opened PvDesc
  import opened PvValue
  import opened ChangeMarks
  import opened Assign
  import opened AssignExact
  import opened AssignMeaning

  // ---- Writing below a root ----

  /** The value with the field at `segs` replaced. */
  function ReplaceAt(f: PvField, segs: seq<string>, v: PvField): PvField
    decreases |segs|
  {
    if segs == [] then v
    else if !f.PvStructure? || GetField(f.fields, segs[0]).None? then f
    else f.(fields := SetField(f.fields, segs[0], ReplaceAt(GetField(f.fields, segs[0]).value, segs[1..], v)))
  }

  /** The root holds the new value where the old one was. */
  lemma {:induction false} ReplacedField(d: FieldDesc, f: PvField, segs: seq<string>, v: PvField, more: seq<string>)
    requires Conforms(d, f) && IsNode(d, segs) && Conforms(DescAt(d, segs).value, v)
    ensures FieldAt(ReplaceAt(f, segs, v), segs + more) == FieldAt(v, more)
    decreases |segs|
  {
    if segs == [] {
      assert segs + more == more;
    } else {
      var child := Lookup(d.fields, segs[0]).value;
      MemberField(d.fields, f.fields, segs[0]);
      var before := GetField(f.fields, segs[0]).value;
      ReplacedField(child, before, segs[1..], v, more);
      ReplaceConforms(child, before, segs[1..], v);
      SetFieldKeeps(d.fields, f.fields, segs[0], ReplaceAt(before, segs[1..], v));
      assert (segs + more)[1..] == segs[1..] + more;
    }
  }

  /** An item assignment that succeeds, seen from the root: the leaves the object names hold what it
      has for them and are marked. */
  lemma {:induction false} SetItemMeans(
      conv: Conv, d: FieldDesc, f: PvField, segs: seq<string>, obj: PyObj, marks: set<nat>, leaf: seq<string>)
    requires Conforms(d, f) && IsNode(d, segs) && DictsDeep(obj) && IsLeaf(DescAt(d, segs).value, leaf)
    requires BitForPath(d, segs).Some? && FieldAt(f, segs).Some? && Asked(obj, leaf).Some?
    requires AssignTo(conv, DescAt(d, segs).value, FieldAt(f, segs).value, obj, marks, BitForPath(d, segs).value).error.None?
    ensures var out := AssignTo(conv, DescAt(d, segs).value, FieldAt(f, segs).value, obj, marks, BitForPath(d, segs).value);
            var root := ReplaceAt(f, segs, out.target);
            && FieldAt(root, segs + leaf).Some?
            && HoldsLeaf(conv, DescAt(DescAt(d, segs).value, leaf).value, FieldAt(root, segs + leaf).value, Asked(obj, leaf).value)
            && Marked(d, out.marks, segs + leaf)
  {
    var sub, bit := DescAt(d, segs).value, BitForPath(d, segs).value;
    NodeHasField(d, f, segs);
    var out := AssignTo(conv, sub, FieldAt(f, segs).value, obj, marks, bit);
    AssignKeeps(conv, sub, FieldAt(f, segs).value, obj, marks, bit);
    AssignMeans(conv, sub, FieldAt(f, segs).value, obj, marks, bit, leaf);
    ReplacedField(d, f, segs, out.target, leaf);
    DescAtConcat(d, segs, leaf);
  }

  /** What an assignment keeps of a field, it keeps of the root around it. */
  lemma {:induction false} KeptAtRoot(
      d: FieldDesc, f: PvField, segs: seq<string>, v: PvField, marks: set<nat>, bit: nat, marks': set<nat>)
    requires Conforms(d, f) && IsNode(d, segs) && BitForPath(d, segs).Some? && FieldAt(f, segs).Some?
    requires Kept(DescAt(d, segs).value, FieldAt(f, segs).value, marks, bit + BitForPath(d, segs).value, v, marks')
    ensures Kept(d, f, marks, bit, ReplaceAt(f, segs, v), marks')
    decreases |segs|
  {
    if segs != [] {
      var name := segs[0];
      MemberField(d.fields, f.fields, name);
      var child, cf := Lookup(d.fields, name).value, GetField(f.fields, name).value;
      KeptAtRoot(child, cf, segs[1..], v, marks, bit + 1 + OffsetOf(d.fields, name), marks');
      var cv := ReplaceAt(cf, segs[1..], v);
      MemberAssigned(d.fields, f.fields, marks, bit + 1, name, cv, marks');
      StructureKept(d, f, marks, bit, SetField(f.fields, name, cv), marks');
    }
  }

  /** Fields that are not below the replaced one, nor above it, are untouched. */
  lemma {:induction false} ReplaceTouchesOnly(d: FieldDesc, f: PvField, segs: seq<string>, v: PvField, q: seq<string>)
    requires Conforms(d, f) && IsNode(d, segs) && IsNode(d, q) && !(segs <= q) && !(q <= segs)
    requires Conforms(DescAt(d, segs).value, v)
    ensures FieldAt(ReplaceAt(f, segs, v), q) == FieldAt(f, q)
    decreases |segs|
  {
    var name := segs[0];
    MemberField(d.fields, f.fields, name);
    var child, cf := Lookup(d.fields, name).value, GetField(f.fields, name).value;
    ReplaceConforms(child, cf, segs[1..], v);
    SetFieldKeeps(d.fields, f.fields, name, ReplaceAt(cf, segs[1..], v));
    if q[0] == name {
      assert segs == [name] + segs[1..] && q == [name] + q[1..];
      ReplaceTouchesOnly(child, cf, segs[1..], v, q[1..]);
    }
  }

  lemma {:induction false} ReplaceConforms(d: FieldDesc, f: PvField, segs: seq<string>, v: PvField)
    requires Conforms(d, f) && IsNode(d, segs) && Conforms(DescAt(d, segs).value, v)
    ensures Conforms(d, ReplaceAt(f, segs, v)) && FieldAt(ReplaceAt(f, segs, v), segs) == Some(v)
    decreases |segs|
  {
    if segs != [] {
      var name := segs[0];
      MemberField(d.fields, f.fields, name);
      ReplaceConforms(Lookup(d.fields, name).value, GetField(f.fields, name).value, segs[1..], v);
      SetFieldKeeps(d.fields, f.fields, name, ReplaceAt(GetField(f.fields, name).value, segs[1..], v));
    }
  }

  // ---- The objects ----

  class Root {
    const desc: FieldDesc
    var field: PvField
    var marks: set<nat>

    constructor (desc: FieldDesc, field: PvField, marks: set<nat>)
      ensures this.desc == desc && this.field == field && this.marks == marks
    {
      this.desc, this.field, this.marks := desc, field, marks;
    }

    predicate Valid()
      reads this
    {
      WellFormed(desc) && Conforms(desc, field)
    }

    /** Set or clear a whole subtree's bits; false for a path that names nothing. */
    method MarkSpan(path: string, val: bool) returns (found: bool)
      modifies this`marks
      ensures found == IsNode(desc, Segments(path))
      ensures !found ==> marks == old(marks)
      ensures found ==>
                marks == if val then old(marks) + Span(desc, Segments(path)) else old(marks) - Span(desc, Segments(path))
    {
      var sub := FindDesc(desc, path);
      NodeSpan(desc, Segments(path));
      if sub.None? {
        return false;
      }
      var start := BitForPath(desc, Segments(path)).value;
      var end := start + TotalBits(sub.value);
      if val {
        var b: nat := start;
        while b < end
          invariant start <= b <= end
          invariant marks == old(marks) + Range(start, b)
        {
          assert Range(start, b + 1) == Range(start, b) + {b} by {
            assert Within(b, start, b + 1);
            assert forall k | k in Range(start, b) :: Within(k, start, b + 1);
            assert forall k | k in Range(start, b + 1) && k != b :: Within(k, start, b);
          }
          marks := marks + {b};
          b := b + 1;
        }
      } else {
        assert forall b :: b in Span(desc, Segments(path)) <==> Within(b, start, end);
        marks := set b | b in marks && (b < start || b >= end);
      }
      return true;
    }
  }

  class Value {
    const root: Root
    const prefix: string

    constructor (root: Root, prefix: string)
      ensures this.root == root && this.prefix == prefix
    {
      this.root, this.prefix := root, prefix;
    }

    /** A view of an existing structure. */
    predicate Valid()
      reads root
    {
      root.Valid() && IsNode(root.desc, Segments(prefix))
    }

    function Full(key: string): string {
      Join(prefix, key)
    }

    /** `changed(*fields)`. */
    method Changed(fields: seq<string>) returns (r: Result<bool, PyError>)
      requires Valid()
      ensures var names := if fields == [] then [""] else fields;
              r == ChangedAny(root.desc, root.marks, prefix, names)
    {
      var names := if fields == [] then [""] else fields;
      var i := 0;
      while i < |names|
        invariant i <= |names|
        invariant ChangedAny(root.desc, root.marks, prefix, names[i..]) == ChangedAny(root.desc, root.marks, prefix, names)
      {
        var path := Full(names[i]);
        assert names[i..][0] == names[i] && names[i..][1..] == names[i + 1..];
        var sub := FindDesc(root.desc, path);
        if sub.None? {
          return Err(KeyError);
        }
        var changed := OneChanged(path, sub.value);
        if changed {
          return Ok(true);
        }
        i := i + 1;
      }
      assert names[i..] == [];
      return Ok(false);
    }

    /** One field of `changed`: its span, its ancestors, the root. */
    method OneChanged(path: string, sub: FieldDesc) returns (changed: bool)
      requires root.Valid() && DescAt(root.desc, Segments(path)) == Some(sub)
      ensures changed == FieldChanged(root.desc, root.marks, path)
    {
      NodeSpan(root.desc, Segments(path));
      var start := BitForPath(root.desc, Segments(path)).value;
      var hit := AnyMarked(start, start + TotalBits(sub));
      if hit {
        return true;
      }
      var met := WalkUp(path);
      return met || 0 in root.marks;
    }

    method AnyMarked(start: nat, end: nat) returns (hit: bool)
      requires start <= end
      ensures hit == (Range(start, end) * root.marks != {})
    {
      var b := start;
      while b < end
        invariant start <= b <= end
        invariant forall k | start <= k < b :: k !in root.marks
      {
        if b in root.marks {
          assert Within(b, start, end) && b in Range(start, end) * root.marks;
          return true;
        }
        b := b + 1;
      }
      return false;
    }

    /** The ancestor loop, innermost first. */
    method WalkUp(path: string) returns (met: bool)
      requires root.Valid()
      ensures met == WalkMeetsMark(root.desc, root.marks, path)
    {
      var p := path;
      var at := LastDot(p);
      while at.Some?
        invariant at == LastDot(p) && |p| <= |path|
        invariant WalkMeetsMark(root.desc, root.marks, path) == WalkMeetsMark(root.desc, root.marks, p)
        decreases |p|
      {
        var up := p[..at.value];
        assert AncestorWalk(p) == [up] + AncestorWalk(up);
        if Marked(root.desc, root.marks, Segments(up)) {
          assert up in AncestorWalk(p);
          return true;
        }
        assert forall w | w in AncestorWalk(p) && w != up :: w in AncestorWalk(up);
        assert forall w | w in AncestorWalk(up) :: w in AncestorWalk(p);
        p := up;
        at := LastDot(p);
      }
      return false;
    }

    /** `changedSet(expand, parents)`. */
    method ChangedSet(expand: bool, parents: bool) returns (r: set<string>)
      requires Valid()
      ensures r == ChangedSetOf(root.desc, root.marks, prefix, expand, parents)
    {
      var sub := FindDesc(root.desc, prefix);
      NodeSpan(root.desc, Segments(prefix));
      var bit := BitForPath(root.desc, Segments(prefix)).value;
      var above := WalkUp(prefix);
      var paths := CollectMarked(sub.value, bit, "", root.marks, 0 in root.marks || above, expand, []);
      ghost var inherited := 0 in root.marks || WalkMeetsMark(root.desc, root.marks, prefix);
      assert paths == Collected(DescAt(root.desc, Segments(prefix)).value, bit, "", root.marks, inherited, expand);
      r := ToSet(paths);
      if parents {
        r := AddParents(paths);
      }
    }

    method AddParents(paths: seq<string>) returns (r: set<string>)
      ensures r == WithParents(ToSet(paths))
    {
      r := ToSet(paths);
      var i := 0;
      while i < |paths|
        invariant i <= |paths|
        invariant r == ToSet(paths) + WalksOf(paths[..i])
      {
        WalksOfSnoc(paths[..i], paths[i]);
        assert paths[..i + 1] == paths[..i] + [paths[i]];
        var p := paths[i];
        ghost var before := r;
        var at := LastDot(p);
        while at.Some?
          invariant at == LastDot(p)
          invariant r + ToSet(AncestorWalk(p)) == before + ToSet(AncestorWalk(paths[i]))
          decreases |p|
        {
          WalkStep(p);
          p := p[..at.value];
          r := r + {p};
          at := LastDot(p);
        }
        assert ToSet(AncestorWalk(p)) == {};
        i := i + 1;
      }
      assert paths[..i] == paths;
      WalksOfIsParents(paths);
    }

    /** `mark(field, val)`: a named field sets its own bit but clears its whole subtree; with no
        name the whole view is set or cleared. */
    method Mark(field: Option<string>, val: bool) returns (r: Result<(), PyError>)
      requires Valid()
      modifies root`marks
      ensures Valid()
      ensures var segs := Segments(Full(if field.Some? then field.value else ""));
              if !IsNode(root.desc, segs) then r == Err(KeyError) && root.marks == old(root.marks)
              else
                && r == Ok(())
                && root.marks == if !val then old(root.marks) - Span(root.desc, segs)
                                 else if field.Some? then old(root.marks) + {BitOf(root.desc, segs)}
                                 else old(root.marks) + Span(root.desc, segs)
    {
      var path := Full(if field.Some? then field.value else "");
      NodeSpan(root.desc, Segments(path));
      if field.Some? {
        var bit := BitForPath(root.desc, Segments(path));
        if bit.None? {
          return Err(KeyError);
        }
        if val {
          root.marks := root.marks + {bit.value};
        } else {
          var _ := root.MarkSpan(path, false);
        }
        return Ok(());
      }
      var found := root.MarkSpan(path, val);
      return if found then Ok(()) else Err(KeyError);
    }

    /** `self[key] = obj`. */
    method SetItem(conv: Conv, key: string, obj: PyObj) returns (r: Result<(), PyError>)
      requires Valid()
      modifies root
      ensures Valid()
      ensures var segs := Segments(Full(key));
              if !IsNode(root.desc, segs) then
                r == Err(KeyError) && root.field == old(root.field) && root.marks == old(root.marks)
              else
                var out := AssignTo(conv, DescAt(root.desc, segs).value, FieldOf(root.desc, old(root.field), segs),
                                    obj, old(root.marks), BitOf(root.desc, segs));
                && r == (if out.error.Some? then Err(out.error.value) else Ok(()))
                && root.field == ReplaceAt(old(root.field), segs, out.target)
                && root.marks == out.marks
                && Kept(root.desc, old(root.field), old(root.marks), 0, root.field, root.marks)
    {
      var path := Full(key);
      var segs := Segments(path);
      var sub := FindDesc(root.desc, path);
      if sub.None? {
        return Err(KeyError);
      }
      NodeSpan(root.desc, segs);
      NodeHasField(root.desc, root.field, segs);
      var bit := BitForPath(root.desc, segs).value;
      var target := FieldAt(root.field, segs).value;
      var out := AssignTo(conv, sub.value, target, obj, root.marks, bit);
      AssignKeeps(conv, sub.value, target, obj, root.marks, bit);
      KeptAtRoot(root.desc, root.field, segs, out.target, root.marks, 0, out.marks);
      root.field, root.marks := ReplaceAt(root.field, segs, out.target), out.marks;
      return if out.error.Some? then Err(out.error.value) else Ok(());
    }

    /** `select(field, selector)`. */
    method Select(field: string, selector: Option<string>) returns (r: Result<(), PyError>)
      requires Valid()
      modifies root
      ensures Valid()
      ensures var segs := Segments(Full(field));
              var chosen := if IsNode(root.desc, segs) && DescAt(root.desc, segs).value.Union?
                            then Selection(DescAt(root.desc, segs).value.variants, selector) else None;
              if chosen.None? then
                r == Err(KeyError) && root.field == old(root.field) && root.marks == old(root.marks)
              else
                && r == Ok(())
                && root.field == ReplaceAt(old(root.field), segs, chosen.value)
                && root.marks == old(root.marks) + {BitOf(root.desc, segs)}
                && Kept(root.desc, old(root.field), old(root.marks), 0, root.field, root.marks)
    {
      var path := Full(field);
      var segs := Segments(path);
      var sub := FindDesc(root.desc, path);
      if sub.None? || !sub.value.Union? {
        return Err(KeyError);
      }
      NodeSpan(root.desc, segs);
      NodeHasField(root.desc, root.field, segs);
      var chosen := Selection(sub.value.variants, selector);
      if chosen.None? {
        return Err(KeyError);
      }
      var bit := BitForPath(root.desc, segs).value;
      LeafStored(sub.value, FieldAt(root.field, segs).value, Ok(chosen.value), root.marks, bit);
      KeptAtRoot(root.desc, root.field, segs, chosen.value, root.marks, 0, root.marks + {bit});
      root.field, root.marks := ReplaceAt(root.field, segs, chosen.value), root.marks + {bit};
      return Ok(());
    }
  }

  function BitOf(d: FieldDesc, segs: seq<string>): nat
    requires IsNode(d, segs)
  {
    NodeSpan(d, segs);
    BitForPath(d, segs).value
  }

  function FieldOf(d: FieldDesc, f: PvField, segs: seq<string>): (v: PvField)
    requires Conforms(d, f) && IsNode(d, segs)
    ensures Conforms(DescAt(d, segs).value, v)
  {
    NodeHasField(d, f, segs);
    FieldAt(f, segs).value
  }

  lemma {:induction false} IndexIsNamed(variants: Members, name: string)
    ensures forall i: nat :: IsNamed(variants, i, name) <==> IndexOf(variants, name) == Some(i)
  {
    forall i: nat ensures IsNamed(variants, i, name) <==> IndexOf(variants, name) == Some(i) {
      NamedIff(variants, i, name);
    }
  }

  /** The union value a selector stands for. */
  function Selection(variants: Members, selector: Option<string>): (r: Option<PvField>)
    ensures r.Some? ==> r.value.PvUnion? && (Unselected(r.value) || SelectedConforms(variants, r.value))
    ensures r.None? <==> selector.Some? && forall i: nat :: !IsNamed(variants, i, selector.value)
    ensures selector.None? ==> r == Some(PvUnion(-1, "", PvNull))
    ensures r.Some? && selector.Some? ==>
              && r.value.selector >= 0 && IsNamed(variants, r.value.selector, selector.value)
              && r.value.name == selector.value
              && r.value.value == DefaultValue(MemberAt(variants, r.value.selector).value.desc)
  {
    match selector
    case None => Some(UnselectedUnion())
    case Some(name) =>
      IndexIsNamed(variants, name);
      match IndexOf(variants, name)
      case None => None
      case Some(i) =>
        var m := MemberAt(variants, i).value;
        Some(PvUnion(i, m.name, DefaultValue(m.desc)))
  }

  function WalksOf(paths: seq<string>): set<string> {
    set p, w | p in paths && w in AncestorWalk(p) :: w
  }

  lemma {:induction false} WalksOfSnoc(paths: seq<string>, p: string)
    ensures WalksOf(paths + [p]) == WalksOf(paths) + ToSet(AncestorWalk(p))
  {
    forall w ensures w in WalksOf(paths + [p]) <==> w in WalksOf(paths) + ToSet(AncestorWalk(p)) {
      if w in AncestorWalk(p) {
        assert p in paths + [p];
      }
      if w in WalksOf(paths) {
        var q :| q in paths && w in AncestorWalk(q);
        assert q in paths + [p];
      }
    }
  }

  lemma {:induction false} WalksOfIsParents(paths: seq<string>)
    ensures ToSet(paths) + WalksOf(paths) == WithParents(ToSet(paths))
  {
    forall w ensures w in ToSet(paths) + WalksOf(paths) <==> w in WithParents(ToSet(paths)) {
      if w in WalksOf(paths) {
        var p :| p in paths && w in AncestorWalk(p);
        assert p in ToSet(paths);
      }
    }
  }

  lemma {:induction false} WalkStep(p: string)
    requires LastDot(p).Some?
    ensures ToSet(AncestorWalk(p)) == {p[..LastDot(p).value]} + ToSet(AncestorWalk(p[..LastDot(p).value]))
  {
    var up := p[..LastDot(p).value];
    assert AncestorWalk(p) == [up] + AncestorWalk(up);
  }

  /** The first name that is unknown or changed decides. */
  function ChangedAny(d: FieldDesc, marks: set<nat>, prefix: string, names: seq<string>): Result<bool, PyError> {
    if names == [] then Ok(false)
    else if !IsNode(d, Segments(Join(prefix, names[0]))) then Err(KeyError)
    else if FieldChanged(d, marks, Join(prefix, names[0])) then Ok(true)
    else ChangedAny(d, marks, prefix, names[1..])
  }

  /** An unknown name raises exactly if no name in front of it is unknown or related to a mark. */
  lemma {:induction false} ChangedRaisesIff(d: FieldDesc, marks: set<nat>, prefix: string, names: seq<string>)
    requires WellFormed(d)
    ensures ChangedAny(d, marks, prefix, names).Err?
            <==> exists i | 0 <= i < |names| :: FirstUnknown(d, marks, prefix, names, i)
    ensures ChangedAny(d, marks, prefix, names).Err? ==> ChangedAny(d, marks, prefix, names) == Err(KeyError)
    decreases |names|
  {
    if names != [] {
      var rest := names[1..];
      ChangedRaisesIff(d, marks, prefix, rest);
      if IsNode(d, Segments(Join(prefix, names[0]))) {
        ChangedMeansRelated(d, marks, Join(prefix, names[0]));
        if j :| 0 <= j < |rest| && FirstUnknown(d, marks, prefix, rest, j) {
          if !Related(d, marks, Segments(Join(prefix, names[0]))) {
            forall k | 0 <= k < j + 1
              ensures IsNode(d, Segments(Join(prefix, names[k]))) && !Related(d, marks, Segments(Join(prefix, names[k])))
            {
              assert k > 0 ==> names[k] == rest[k - 1];
            }
            assert FirstUnknown(d, marks, prefix, names, j + 1);
          }
        }
        if i :| 0 <= i < |names| && FirstUnknown(d, marks, prefix, names, i) {
          assert i > 0;
          assert forall k | 0 <= k < i - 1 :: rest[k] == names[k + 1];
          assert FirstUnknown(d, marks, prefix, rest, i - 1);
        }
      } else {
        assert FirstUnknown(d, marks, prefix, names, 0);
      }
    }
  }

  ghost predicate FirstUnknown(d: FieldDesc, marks: set<nat>, prefix: string, names: seq<string>, i: nat)
    requires i < |names|
  {
    && !IsNode(d, Segments(Join(prefix, names[i])))
    && forall j | 0 <= j < i ::
         IsNode(d, Segments(Join(prefix, names[j]))) && !Related(d, marks, Segments(Join(prefix, names[j])))
  }

  /** With every name known, `changed` is true exactly when one of them is, an ancestor of one
      is, or a descendant of one is marked. */
  lemma {:induction false} ChangedMeansOneRelated(d: FieldDesc, marks: set<nat>, prefix: string, names: seq<string>)
    requires WellFormed(d) && forall i | 0 <= i < |names| :: IsNode(d, Segments(Join(prefix, names[i])))
    ensures ChangedAny(d, marks, prefix, names)
            == Ok(exists i | 0 <= i < |names| :: Related(d, marks, Segments(prefix) + Segments(names[i])))
    decreases |names|
  {
    if names != [] {
      SegmentsOfJoin(prefix, names[0]);
      ChangedMeansRelated(d, marks, Join(prefix, names[0]));
      forall i | 0 <= i < |names[1..]| ensures IsNode(d, Segments(Join(prefix, names[1..][i]))) {
        assert names[1..][i] == names[i + 1];
      }
      ChangedMeansOneRelated(d, marks, prefix, names[1..]);
      if i :| 1 <= i < |names| && Related(d, marks, Segments(prefix) + Segments(names[i])) {
        assert names[1..][i - 1] == names[i];
      }
      if i :| 0 <= i < |names[1..]| && Related(d, marks, Segments(prefix) + Segments(names[1..][i])) {
        assert names[i + 1] == names[1..][i];
      }
    }
  }

  // ---- What a put sends ----

  /** `marked_leaves`: the covered leaves of a root with their values. */
  function MarkedLeaves(d: FieldDesc, field: PvField, marks: set<nat>): set<(string, PvField)> {
    set p | p in Collected(d, 0, "", marks, false, true) && FieldAt(field, Segments(p)).Some?
            :: (p, FieldAt(field, Segments(p)).value)
  }

  /** A put sends every marked leaf with its value, and nothing else; a leaf is marked when it
      or an enclosing structure is. */
  lemma {:induction false} PutSendsCoveredLeaves(d: FieldDesc, field: PvField, marks: set<nat>, segs: seq<string>, v: PvField)
    requires WellFormed(d) && Conforms(d, field) && IsNode(d, segs) && segs != []
    ensures (Extend("", segs), v) in MarkedLeaves(d, field, marks)
            <==> IsLeaf(d, segs) && Covered(d, marks, segs) && FieldAt(field, segs) == Some(v)
  {
    DottedPathFinds(d, segs);
    NodeHasField(d, field, segs);
    NodePathOk(d, segs);
    ExtendNonEmpty("", segs);
    var p := Extend("", segs);
    if p in Collected(d, 0, "", marks, false, true) {
      var t := CollectedIsCoveredLeaf(d, 0, "", marks, false, p);
      DottedPathFinds(d, t);
    }
    if IsLeaf(d, segs) && Covered(d, marks, segs) {
      CoveredLeafCollected(d, 0, "", marks, false, segs);
    }
  }

  /** A put has nothing to send exactly when no leaf below the root is covered; a root that is
      not a structure can never be put. */
  lemma {:induction false} NothingToPutIff(d: FieldDesc, field: PvField, marks: set<nat>)
    requires WellFormed(d) && Conforms(d, field)
    ensures MarkedLeaves(d, field, marks) == {}
            <==> forall segs :: segs != [] && IsLeaf(d, segs) ==> !Covered(d, marks, segs)
  {
    if e :| e in MarkedLeaves(d, field, marks) {
      var t := CollectedIsCoveredLeaf(d, 0, "", marks, false, e.0);
      assert t != [];
    }
    if segs :| segs != [] && IsLeaf(d, segs) && Covered(d, marks, segs) {
      NodeHasField(d, field, segs);
      PutSendsCoveredLeaves(d, field, marks, segs, FieldAt(field, segs).value);
    }
  }
}
