/**
 pvData values, and the two library operations that combine a delta with a full
 value: completing a partial value from a prior one, and writing a delta into a
 stored one. Both are proved to be one pointwise overlay on the leaves, and the
 laws of that overlay are what the delivery proofs use.
 */
module PvValue {
  import opened Common
  import opened PvDesc

  /** A scalar of its declared type; what it holds is left abstract. */
  datatype ScalarValue = ScalarValue(st: ScalarType, raw: int)

  /** A null element of an array and an empty payload are both `PvNull`. */
  datatype PvField =
    | PvScalar(v: ScalarValue)
    | PvScalarArray(st: ScalarType, elems: seq<int>)
    | PvStructure(id: string, fields: Fields)
    | PvStructureArray(items: seq<PvField>)
    | PvUnion(selector: int, name: string, value: PvField)
    | PvUnionArray(items: seq<PvField>)
    | PvVariant(desc: Option<FieldDesc>, value: PvField)
    | PvVariantArray(items: seq<PvField>)
    | PvNull

  datatype Fields = NoField | Field(name: string, value: PvField, rest: Fields)

  function GetField(fs: Fields, name: string): Option<PvField> {
    if fs.NoField? then None
    else if fs.name == name then Some(fs.value)
    else GetField(fs.rest, name)
  }

  /** `field_at`, on the segments of the path. */
  function FieldAt(f: PvField, segs: seq<string>): Option<PvField>
    decreases |segs|
  {
    if segs == [] then Some(f)
    else if !f.PvStructure? then None
    else
      match GetField(f.fields, segs[0])
      case None => None
      case Some(child) => FieldAt(child, segs[1..])
  }

  function MemberAt(ms: Members, i: nat): Option<Members> {
    if ms.NoMember? then None
    else if i == 0 then Some(ms)
    else MemberAt(ms.rest, i - 1)
  }

  /** The value has the shape and the declared types of the descriptor. */
  predicate Conforms(d: FieldDesc, f: PvField)
    decreases f
  {
    match d
    case Scalar(st) => f.PvScalar? && f.v.st == st
    case ScalarArray(st) => f.PvScalarArray? && f.st == st
    case Structure(id, fields) => f.PvStructure? && f.id == id && FieldsConform(fields, f.fields)
    case StructureArray(id, fields) =>
      && f.PvStructureArray?
      && forall i | 0 <= i < |f.items| ::
           f.items[i].PvNull? || Conforms(Structure(id, fields), f.items[i])
    case Union(_, variants) => f.PvUnion? && (Unselected(f) || SelectedConforms(variants, f))
    case UnionArray(_, variants) =>
      && f.PvUnionArray?
      && forall i | 0 <= i < |f.items| ::
           f.items[i].PvNull? || (f.items[i].PvUnion? && SelectedConforms(variants, f.items[i]))
    case Variant => f.PvVariant? && VariantConforms(f)
    case VariantArray =>
      && f.PvVariantArray?
      && forall i | 0 <= i < |f.items| ::
           f.items[i].PvNull? || (f.items[i].PvVariant? && VariantConforms(f.items[i]))
  }

  predicate FieldsConform(ms: Members, fs: Fields)
    decreases fs
  {
    match fs
    case NoField => ms.NoMember?
    case Field(name, value, rest) =>
      ms.Member? && name == ms.name && Conforms(ms.desc, value) && FieldsConform(ms.rest, rest)
  }

  predicate Unselected(f: PvField)
    requires f.PvUnion?
  {
    f.selector == -1 && f.name == "" && f.value.PvNull?
  }

  predicate SelectedConforms(variants: Members, f: PvField)
    requires f.PvUnion?
    decreases f, 0
  {
    && f.selector >= 0
    && MemberAt(variants, f.selector).Some?
    && var m := MemberAt(variants, f.selector).value;
    && m.Member?
    && f.name == m.name
    && Conforms(m.desc, f.value)
  }

  predicate VariantConforms(f: PvField)
    requires f.PvVariant?
    decreases f, 0
  {
    match f.desc
    case None => f.value.PvNull?
    case Some(d) => Conforms(d, f.value)
  }

  function UnselectedUnion(): PvField {
    PvUnion(-1, "", PvNull)
  }

  function DefaultValue(d: FieldDesc): (f: PvField)
    ensures Conforms(d, f)
  {
    match d
    case Scalar(st) => PvScalar(ScalarValue(st, 0))
    case ScalarArray(st) => PvScalarArray(st, [])
    case Structure(id, fields) => PvStructure(id, DefaultFields(fields))
    case StructureArray(_, _) => PvStructureArray([])
    case Union(_, _) => UnselectedUnion()
    case UnionArray(_, _) => PvUnionArray([])
    case Variant => PvVariant(None, PvNull)
    case VariantArray => PvVariantArray([])
  }

  function DefaultFields(ms: Members): (fs: Fields)
    ensures FieldsConform(ms, fs)
  {
    match ms
    case NoMember => NoField
    case Member(name, d, rest) => Field(name, DefaultValue(d), DefaultFields(rest))
  }

  /** A leaf that was never assigned: zero, empty, unselected. */
  function EmptyLeaf(d: FieldDesc): PvField
    requires !d.Structure?
  {
    match d
    case Scalar(st) => PvScalar(ScalarValue(st, 0))
    case ScalarArray(st) => PvScalarArray(st, [])
    case StructureArray(_, _) => PvStructureArray([])
    case Union(_, _) => PvUnion(-1, "", PvNull)
    case UnionArray(_, _) => PvUnionArray([])
    case Variant => PvVariant(None, PvNull)
    case VariantArray => PvVariantArray([])
  }

  /** A fresh value is empty at every leaf, however deep. */
  lemma {:induction false} DefaultIsEmpty(d: FieldDesc, segs: seq<string>)
    requires IsLeaf(d, segs)
    ensures FieldAt(DefaultValue(d), segs) == Some(EmptyLeaf(DescAt(d, segs).value))
    decreases |segs|
  {
    if segs != [] {
      DefaultMember(d.fields, segs[0]);
      DefaultIsEmpty(Lookup(d.fields, segs[0]).value, segs[1..]);
    }
  }

  lemma {:induction false} DefaultMember(ms: Members, name: string)
    requires Lookup(ms, name).Some?
    ensures GetField(DefaultFields(ms), name) == Some(DefaultValue(Lookup(ms, name).value))
    decreases ms
  {
    if ms.name != name {
      DefaultMember(ms.rest, name);
    }
  }

  // ---- Marks ----

  /** A node is covered when it or one of its ancestors is marked; the root's bit is `bit`. */
  predicate CoveredAt(d: FieldDesc, bit: nat, marks: set<nat>, segs: seq<string>)
    decreases |segs|
  {
    || bit in marks
    || (&& segs != []
        && d.Structure?
        && Lookup(d.fields, segs[0]).Some?
        && CoveredAt(Lookup(d.fields, segs[0]).value, bit + 1 + OffsetOf(d.fields, segs[0]), marks, segs[1..]))
  }

  predicate Covered(d: FieldDesc, marks: set<nat>, segs: seq<string>) {
    CoveredAt(d, 0, marks, segs)
  }

  /** The node's own bit is marked. */
  predicate MarkedAt(d: FieldDesc, bit: nat, marks: set<nat>, segs: seq<string>) {
    BitForPath(d, segs).Some? && bit + BitForPath(d, segs).value in marks
  }

  predicate Marked(d: FieldDesc, marks: set<nat>, segs: seq<string>) {
    MarkedAt(d, 0, marks, segs)
  }

  /** Covered means: some prefix of the path, the path included, has its own bit marked. */
  lemma {:induction false} CoveredMeansMarkedPrefix(d: FieldDesc, bit: nat, marks: set<nat>, segs: seq<string>)
    requires IsNode(d, segs)
    ensures CoveredAt(d, bit, marks, segs)
            <==> exists k | 0 <= k <= |segs| :: MarkedAt(d, bit, marks, segs[..k])
    decreases |segs|
  {
    assert segs[..0] == [];
    if segs != [] {
      var child := Lookup(d.fields, segs[0]).value;
      var cbit := bit + 1 + OffsetOf(d.fields, segs[0]);
      CoveredMeansMarkedPrefix(child, cbit, marks, segs[1..]);
      forall k | 1 <= k <= |segs|
        ensures MarkedAt(d, bit, marks, segs[..k]) <==> MarkedAt(child, cbit, marks, segs[1..][..k - 1])
      {
        assert segs[..k][1..] == segs[1..][..k - 1];
      }
      if CoveredAt(d, bit, marks, segs) && bit !in marks {
        var j :| 0 <= j <= |segs[1..]| && MarkedAt(child, cbit, marks, segs[1..][..j]);
        assert segs[1..][..j] == segs[1..][..(j + 1) - 1];
        assert MarkedAt(d, bit, marks, segs[..j + 1]);
      }
    } else {
      assert MarkedAt(d, bit, marks, segs[..0]) <==> bit in marks;
    }
  }

  lemma {:induction false} CoveredByUnion(d: FieldDesc, bit: nat, m: set<nat>, n: set<nat>, segs: seq<string>)
    ensures CoveredAt(d, bit, m + n, segs) <==> CoveredAt(d, bit, m, segs) || CoveredAt(d, bit, n, segs)
    decreases |segs|
  {
    if segs != [] && d.Structure? && Lookup(d.fields, segs[0]).Some? {
      CoveredByUnion(Lookup(d.fields, segs[0]).value, bit + 1 + OffsetOf(d.fields, segs[0]), m, n, segs[1..]);
    }
  }

  // ---- The two library operations ----

  /** `fill_unmarked_from_prior`: keep what is marked, take the rest from `prior`. */
  function FillUnmarked(d: FieldDesc, marks: set<nat>, bit: nat, newer: PvField, prior: PvField): PvField {
    if bit in marks then newer
    else if d.Structure? && newer.PvStructure? && prior.PvStructure? then
      PvStructure(newer.id, FillMembers(d.fields, marks, bit + 1, newer.fields, prior.fields))
    else prior
  }

  function FillMembers(ms: Members, marks: set<nat>, bit: nat, newer: Fields, prior: Fields): Fields {
    if ms.NoMember? || newer.NoField? || prior.NoField? then newer
    else
      Field(newer.name, FillUnmarked(ms.desc, marks, bit, newer.value, prior.value),
            FillMembers(ms.rest, marks, bit + TotalBits(ms.desc), newer.rest, prior.rest))
  }

  /** `post_delta`: copy the marked subtrees of `src` into `stored`. */
  function PostDelta(d: FieldDesc, marks: set<nat>, bit: nat, src: PvField, stored: PvField): PvField {
    if bit in marks then src
    else if d.Structure? && src.PvStructure? && stored.PvStructure? then
      stored.(fields := PostMembers(d.fields, marks, bit + 1, src.fields, stored.fields))
    else stored
  }

  function PostMembers(ms: Members, marks: set<nat>, bit: nat, src: Fields, stored: Fields): Fields {
    if ms.NoMember? || src.NoField? || stored.NoField? then stored
    else
      stored.(value := PostDelta(ms.desc, marks, bit, src.value, stored.value),
              rest := PostMembers(ms.rest, marks, bit + TotalBits(ms.desc), src.rest, stored.rest))
  }

  /** The meaning of both: marked leaves from `newer`, every other leaf from `older`. */
  function Overlay(d: FieldDesc, marks: set<nat>, newer: PvField, older: PvField): PvField {
    FillUnmarked(d, marks, 0, newer, older)
  }

  lemma {:induction false} FillConforms(d: FieldDesc, marks: set<nat>, bit: nat, newer: PvField, prior: PvField)
    requires Conforms(d, newer) && Conforms(d, prior)
    ensures Conforms(d, FillUnmarked(d, marks, bit, newer, prior))
    decreases d
  {
    if bit !in marks && d.Structure? {
      FillMembersConform(d.fields, marks, bit + 1, newer.fields, prior.fields);
    }
  }

  lemma {:induction false} FillMembersConform(ms: Members, marks: set<nat>, bit: nat, newer: Fields, prior: Fields)
    requires FieldsConform(ms, newer) && FieldsConform(ms, prior)
    ensures FieldsConform(ms, FillMembers(ms, marks, bit, newer, prior))
    decreases ms
  {
    if ms.Member? {
      FillConforms(ms.desc, marks, bit, newer.value, prior.value);
      FillMembersConform(ms.rest, marks, bit + TotalBits(ms.desc), newer.rest, prior.rest);
    }
  }

  /** Writing a delta into the stored value and completing a delta from a prior agree. */
  lemma {:induction false} PostDeltaIsFill(d: FieldDesc, marks: set<nat>, bit: nat, src: PvField, stored: PvField)
    requires Conforms(d, src) && Conforms(d, stored)
    ensures PostDelta(d, marks, bit, src, stored) == FillUnmarked(d, marks, bit, src, stored)
    decreases d
  {
    if bit !in marks && d.Structure? {
      PostMembersIsFill(d.fields, marks, bit + 1, src.fields, stored.fields);
    }
  }

  lemma {:induction false} PostMembersIsFill(ms: Members, marks: set<nat>, bit: nat, src: Fields, stored: Fields)
    requires FieldsConform(ms, src) && FieldsConform(ms, stored)
    ensures PostMembers(ms, marks, bit, src, stored) == FillMembers(ms, marks, bit, src, stored)
    decreases ms
  {
    if ms.Member? {
      PostDeltaIsFill(ms.desc, marks, bit, src.value, stored.value);
      PostMembersIsFill(ms.rest, marks, bit + TotalBits(ms.desc), src.rest, stored.rest);
    }
  }

  // ---- The overlay, leaf by leaf ----

  lemma {:induction false} MemberField(ms: Members, fs: Fields, name: string)
    requires FieldsConform(ms, fs)
    ensures GetField(fs, name).Some? <==> Lookup(ms, name).Some?
    ensures Lookup(ms, name).Some? ==> Conforms(Lookup(ms, name).value, GetField(fs, name).value)
    decreases ms
  {
    if ms.Member? && ms.name != name {
      MemberField(ms.rest, fs.rest, name);
    }
  }

  lemma {:induction false} NodeHasField(d: FieldDesc, f: PvField, segs: seq<string>)
    requires Conforms(d, f) && IsNode(d, segs)
    ensures FieldAt(f, segs).Some? && Conforms(DescAt(d, segs).value, FieldAt(f, segs).value)
    decreases |segs|
  {
    if segs != [] {
      MemberField(d.fields, f.fields, segs[0]);
      NodeHasField(Lookup(d.fields, segs[0]).value, GetField(f.fields, segs[0]).value, segs[1..]);
    }
  }

  lemma {:induction false} FilledMember(ms: Members, marks: set<nat>, bit: nat, newer: Fields, prior: Fields, name: string)
    requires FieldsConform(ms, newer) && FieldsConform(ms, prior) && Lookup(ms, name).Some?
    ensures GetField(newer, name).Some? && GetField(prior, name).Some?
    ensures GetField(FillMembers(ms, marks, bit, newer, prior), name)
            == Some(FillUnmarked(Lookup(ms, name).value, marks, bit + OffsetOf(ms, name),
                                 GetField(newer, name).value, GetField(prior, name).value))
    decreases ms
  {
    if ms.name != name {
      FilledMember(ms.rest, marks, bit + TotalBits(ms.desc), newer.rest, prior.rest, name);
    }
  }

  /** At a leaf the overlay holds the newer value if the leaf is covered, else the older. */
  lemma {:induction false} FillAtLeaf(d: FieldDesc, marks: set<nat>, bit: nat, newer: PvField, prior: PvField, segs: seq<string>)
    requires Conforms(d, newer) && Conforms(d, prior) && IsLeaf(d, segs)
    ensures FieldAt(FillUnmarked(d, marks, bit, newer, prior), segs)
            == FieldAt(if CoveredAt(d, bit, marks, segs) then newer else prior, segs)
    decreases |segs|
  {
    if bit !in marks && segs != [] {
      var name := segs[0];
      MemberField(d.fields, newer.fields, name);
      MemberField(d.fields, prior.fields, name);
      FilledMember(d.fields, marks, bit + 1, newer.fields, prior.fields, name);
      FillAtLeaf(Lookup(d.fields, name).value, marks, bit + 1 + OffsetOf(d.fields, name),
                 GetField(newer.fields, name).value, GetField(prior.fields, name).value, segs[1..]);
    }
  }

  ghost predicate SameLeaves(d: FieldDesc, x: PvField, y: PvField) {
    forall segs | IsLeaf(d, segs) :: FieldAt(x, segs) == FieldAt(y, segs)
  }

  /** The two values agree on every leaf the marks cover. */
  ghost predicate AgreeOn(d: FieldDesc, marks: set<nat>, x: PvField, y: PvField) {
    forall segs | IsLeaf(d, segs) && Covered(d, marks, segs) :: FieldAt(x, segs) == FieldAt(y, segs)
  }

  /** Conforming values with equal leaves are equal. */
  lemma {:induction false} LeavesDetermine(d: FieldDesc, x: PvField, y: PvField)
    requires WellFormed(d) && Conforms(d, x) && Conforms(d, y) && SameLeaves(d, x, y)
    ensures x == y
    decreases d
  {
    if d.Structure? {
      forall name, segs | Lookup(d.fields, name).Some? && IsLeaf(Lookup(d.fields, name).value, segs)
        ensures && GetField(x.fields, name).Some? && GetField(y.fields, name).Some?
                && FieldAt(GetField(x.fields, name).value, segs) == FieldAt(GetField(y.fields, name).value, segs)
      {
        MemberField(d.fields, x.fields, name);
        MemberField(d.fields, y.fields, name);
        var path := [name] + segs;
        assert path[1..] == segs;
        assert IsLeaf(d, path) && FieldAt(x, path) == FieldAt(y, path);
      }
      MemberLeavesDetermine(d.fields, x.fields, y.fields);
    } else {
      assert IsLeaf(d, []);
    }
  }

  lemma {:induction false} MemberLeavesDetermine(ms: Members, x: Fields, y: Fields)
    requires MembersOk(ms) && FieldsConform(ms, x) && FieldsConform(ms, y)
    requires forall name, segs | Lookup(ms, name).Some? && IsLeaf(Lookup(ms, name).value, segs) ::
               && GetField(x, name).Some? && GetField(y, name).Some?
               && FieldAt(GetField(x, name).value, segs) == FieldAt(GetField(y, name).value, segs)
    ensures x == y
    decreases ms
  {
    if ms.Member? {
      assert Lookup(ms, ms.name) == Some(ms.desc);
      LeavesDetermine(ms.desc, x.value, y.value);
      forall name, segs | Lookup(ms.rest, name).Some? && IsLeaf(Lookup(ms.rest, name).value, segs)
        ensures && GetField(x.rest, name).Some? && GetField(y.rest, name).Some?
                && FieldAt(GetField(x.rest, name).value, segs) == FieldAt(GetField(y.rest, name).value, segs)
      {
        assert name != ms.name && Lookup(ms, name) == Lookup(ms.rest, name);
      }
      MemberLeavesDetermine(ms.rest, x.rest, y.rest);
    }
  }

  // ---- The laws of the overlay ----

  lemma {:induction false} OverlayAtLeaf(d: FieldDesc, marks: set<nat>, x: PvField, y: PvField, segs: seq<string>)
    requires Conforms(d, x) && Conforms(d, y) && IsLeaf(d, segs)
    ensures Conforms(d, Overlay(d, marks, x, y))
    ensures FieldAt(Overlay(d, marks, x, y), segs)
            == FieldAt(if Covered(d, marks, segs) then x else y, segs)
  {
    FillConforms(d, marks, 0, x, y);
    FillAtLeaf(d, marks, 0, x, y, segs);
  }

  /** Only the covered leaves of the newer value matter. */
  lemma {:induction false} OverlayUsesCoveredOnly(d: FieldDesc, marks: set<nat>, x: PvField, x': PvField, y: PvField)
    requires WellFormed(d) && Conforms(d, x) && Conforms(d, x') && Conforms(d, y) && AgreeOn(d, marks, x, x')
    ensures Overlay(d, marks, x, y) == Overlay(d, marks, x', y)
  {
    FillConforms(d, marks, 0, x, y);
    FillConforms(d, marks, 0, x', y);
    forall segs | IsLeaf(d, segs)
      ensures FieldAt(Overlay(d, marks, x, y), segs) == FieldAt(Overlay(d, marks, x', y), segs)
    {
      OverlayAtLeaf(d, marks, x, y, segs);
      OverlayAtLeaf(d, marks, x', y, segs);
    }
    LeavesDetermine(d, Overlay(d, marks, x, y), Overlay(d, marks, x', y));
  }

  /** The overlay agrees with the newer value where the marks cover. */
  lemma {:induction false} OverlayAgreesOn(d: FieldDesc, marks: set<nat>, x: PvField, y: PvField)
    requires Conforms(d, x) && Conforms(d, y)
    ensures Conforms(d, Overlay(d, marks, x, y)) && AgreeOn(d, marks, Overlay(d, marks, x, y), x)
  {
    FillConforms(d, marks, 0, x, y);
    forall segs | IsLeaf(d, segs) && Covered(d, marks, segs)
      ensures FieldAt(Overlay(d, marks, x, y), segs) == FieldAt(x, segs)
    {
      OverlayAtLeaf(d, marks, x, y, segs);
    }
  }

  /** Overlaying a completed delta again is the same as overlaying the delta. */
  lemma {:induction false} OverlayAbsorbs(d: FieldDesc, marks: set<nat>, x: PvField, y: PvField, z: PvField)
    requires WellFormed(d) && Conforms(d, x) && Conforms(d, y) && Conforms(d, z)
    ensures Overlay(d, marks, Overlay(d, marks, x, y), z) == Overlay(d, marks, x, z)
  {
    OverlayAgreesOn(d, marks, x, y);
    OverlayUsesCoveredOnly(d, marks, Overlay(d, marks, x, y), x, z);
  }

  /** Merging two updates: if the newer one only moved inside its own marks, the union
      of the marks with the newer value means the same as applying the two in turn. */
  lemma {:induction false} SquashLaw(d: FieldDesc, m: set<nat>, n: set<nat>, base: PvField, older: PvField, newer: PvField)
    requires WellFormed(d) && Conforms(d, base) && Conforms(d, older) && Conforms(d, newer)
    requires Overlay(d, n, newer, older) == newer
    ensures Overlay(d, m + n, newer, base) == Overlay(d, n, newer, Overlay(d, m, older, base))
  {
    var inner := Overlay(d, m, older, base);
    FillConforms(d, m, 0, older, base);
    FillConforms(d, n, 0, newer, inner);
    FillConforms(d, m + n, 0, newer, base);
    forall segs | IsLeaf(d, segs)
      ensures FieldAt(Overlay(d, m + n, newer, base), segs) == FieldAt(Overlay(d, n, newer, inner), segs)
    {
      CoveredByUnion(d, 0, m, n, segs);
      OverlayAtLeaf(d, m + n, newer, base, segs);
      OverlayAtLeaf(d, n, newer, inner, segs);
      OverlayAtLeaf(d, m, older, base, segs);
      OverlayAtLeaf(d, n, newer, older, segs);
    }
    LeavesDetermine(d, Overlay(d, m + n, newer, base), Overlay(d, n, newer, inner));
  }

  ghost predicate DisjointlyCovered(d: FieldDesc, m: set<nat>, n: set<nat>) {
    forall segs | IsLeaf(d, segs) :: !(Covered(d, m, segs) && Covered(d, n, segs))
  }

  /** Deltas that share no covered leaf commute. */
  lemma {:induction false} DisjointDeltasCommute(d: FieldDesc, m: set<nat>, n: set<nat>, x: PvField, y: PvField, base: PvField)
    requires WellFormed(d) && Conforms(d, x) && Conforms(d, y) && Conforms(d, base) && DisjointlyCovered(d, m, n)
    ensures Overlay(d, m, x, Overlay(d, n, y, base)) == Overlay(d, n, y, Overlay(d, m, x, base))
  {
    var nFirst := Overlay(d, n, y, base);
    var mFirst := Overlay(d, m, x, base);
    FillConforms(d, n, 0, y, base);
    FillConforms(d, m, 0, x, base);
    FillConforms(d, m, 0, x, nFirst);
    FillConforms(d, n, 0, y, mFirst);
    forall segs | IsLeaf(d, segs)
      ensures FieldAt(Overlay(d, m, x, nFirst), segs) == FieldAt(Overlay(d, n, y, mFirst), segs)
    {
      OverlayAtLeaf(d, m, x, nFirst, segs);
      OverlayAtLeaf(d, n, y, mFirst, segs);
      OverlayAtLeaf(d, n, y, base, segs);
      OverlayAtLeaf(d, m, x, base, segs);
    }
    LeavesDetermine(d, Overlay(d, m, x, nFirst), Overlay(d, n, y, mFirst));
  }
}
