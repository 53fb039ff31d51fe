/**
 pvData type descriptors and their depth-first bit numbering: one bit a node,
 a structure's bit in front of its members' (pvAccess Protocol Specification,
 the changed-set encoding). Only structures are descended into.
 */
module PvDesc {
  import opened Common
  import opened DottedPath

  datatype ScalarType =
    | Boolean | Byte | UByte | Short | UShort | Int | UInt | Long | ULong | Float | Double | String

  datatype FieldDesc =
    | Scalar(st: ScalarType)
    | ScalarArray(st: ScalarType)
    | Variant
    | VariantArray
    | Structure(id: string, fields: Members)
    | StructureArray(id: string, fields: Members)
    | Union(id: string, variants: Members)
    | UnionArray(id: string, variants: Members)

  /** The named members of a compound type, in order. */
  datatype Members = NoMember | Member(name: string, desc: FieldDesc, rest: Members)

  function TotalBits(d: FieldDesc): (n: nat)
    ensures n >= 1
  {
    1 + if d.Structure? then MembersBits(d.fields) else 0
  }

  function MembersBits(ms: Members): nat {
    if ms.NoMember? then 0 else TotalBits(ms.desc) + MembersBits(ms.rest)
  }

  /** The first member called `name`. */
  function Lookup(ms: Members, name: string): Option<FieldDesc> {
    if ms.NoMember? then None
    else if ms.name == name then Some(ms.desc)
    else Lookup(ms.rest, name)
  }

  /** Bits of the members in front of the first one called `name`. */
  function OffsetOf(ms: Members, name: string): nat {
    if ms.NoMember? || ms.name == name then 0
    else TotalBits(ms.desc) + OffsetOf(ms.rest, name)
  }

  function DescAt(d: FieldDesc, segs: seq<string>): Option<FieldDesc>
    decreases |segs|
  {
    if segs == [] then Some(d)
    else if !d.Structure? then None
    else
      match Lookup(d.fields, segs[0])
      case None => None
      case Some(child) => DescAt(child, segs[1..])
  }

  function BitForPath(d: FieldDesc, segs: seq<string>): Option<nat>
    decreases |segs|
  {
    if segs == [] then Some(0)
    else if !d.Structure? then None
    else
      match Lookup(d.fields, segs[0])
      case None => None
      case Some(child) =>
        match BitForPath(child, segs[1..])
        case None => None
        case Some(b) => Some(1 + OffsetOf(d.fields, segs[0]) + b)
  }

  /** A path of the tree. */
  predicate IsNode(d: FieldDesc, segs: seq<string>) {
    DescAt(d, segs).Some?
  }

  predicate IsLeaf(d: FieldDesc, segs: seq<string>) {
    IsNode(d, segs) && !DescAt(d, segs).value.Structure?
  }

  /** Sibling names are unique, non-empty and dot-free. */
  predicate WellFormed(d: FieldDesc) {
    d.Structure? ==> MembersOk(d.fields)
  }

  predicate MembersOk(ms: Members) {
    ms.Member? ==>
      && NameOk(ms.name)
      && Lookup(ms.rest, ms.name).None?
      && WellFormed(ms.desc)
      && MembersOk(ms.rest)
  }

  /** `desc_at`: a cursor walks down the pieces of the path. */
  method FindDesc(d: FieldDesc, path: string) returns (r: Option<FieldDesc>)
    ensures r == DescAt(d, Segments(path))
  {
    var segs := Segments(path);
    var cur := d;
    var i := 0;
    while i < |segs|
      invariant i <= |segs|
      invariant DescAt(cur, segs[i..]) == DescAt(d, segs)
    {
      if !cur.Structure? {
        return None;
      }
      var child := Lookup(cur.fields, segs[i]);
      if child.None? {
        return None;
      }
      assert segs[i..][1..] == segs[i + 1..];
      cur := child.value;
      i := i + 1;
    }
    assert segs[i..] == [];
    return Some(cur);
  }

  // ---- Where the members' spans lie ----

  lemma {:induction false} MemberSpan(ms: Members, name: string)
    requires Lookup(ms, name).Some?
    ensures OffsetOf(ms, name) + TotalBits(Lookup(ms, name).value) <= MembersBits(ms)
  {
    if ms.name != name {
      MemberSpan(ms.rest, name);
    }
  }

  lemma {:induction false} SiblingSpansDisjoint(ms: Members, a: string, b: string)
    requires Lookup(ms, a).Some? && Lookup(ms, b).Some? && a != b
    ensures || OffsetOf(ms, a) + TotalBits(Lookup(ms, a).value) <= OffsetOf(ms, b)
            || OffsetOf(ms, b) + TotalBits(Lookup(ms, b).value) <= OffsetOf(ms, a)
  {
    if ms.name != a && ms.name != b {
      SiblingSpansDisjoint(ms.rest, a, b);
    }
  }

  /** A path has a bit exactly when it names a node, and the node's span lies inside the root's. */
  lemma {:induction false} NodeSpan(d: FieldDesc, segs: seq<string>)
    ensures BitForPath(d, segs).Some? <==> IsNode(d, segs)
    ensures IsNode(d, segs) ==>
              BitForPath(d, segs).value + TotalBits(DescAt(d, segs).value) <= TotalBits(d)
    ensures IsNode(d, segs) && segs != [] ==> BitForPath(d, segs).value >= 1
    decreases |segs|
  {
    if segs != [] && d.Structure? && Lookup(d.fields, segs[0]).Some? {
      NodeSpan(Lookup(d.fields, segs[0]).value, segs[1..]);
      MemberSpan(d.fields, segs[0]);
    }
  }

  /** Node q's bit lies in node p's span exactly when p is a prefix of q. */
  lemma {:induction false} SpanTheorem(d: FieldDesc, p: seq<string>, q: seq<string>)
    requires IsNode(d, p) && IsNode(d, q)
    ensures BitForPath(d, p).Some? && BitForPath(d, q).Some?
    ensures var start := BitForPath(d, p).value;
            start <= BitForPath(d, q).value < start + TotalBits(DescAt(d, p).value) <==> p <= q
    decreases |p|
  {
    NodeSpan(d, p);
    NodeSpan(d, q);
    if p != [] && q != [] {
      var childP := Lookup(d.fields, p[0]).value;
      NodeSpan(childP, p[1..]);
      if p[0] == q[0] {
        SpanTheorem(childP, p[1..], q[1..]);
        assert p <= q <==> p[1..] <= q[1..] by {
          assert p == [p[0]] + p[1..] && q == [q[0]] + q[1..];
        }
      } else {
        NodeSpan(Lookup(d.fields, q[0]).value, q[1..]);
        SiblingSpansDisjoint(d.fields, p[0], q[0]);
      }
    }
  }

  // ---- The numbering is a bijection between nodes and bits ----

  function PathOfBit(d: FieldDesc, b: nat): seq<string>
    requires b < TotalBits(d)
  {
    if b == 0 then [] else PathOfMemberBit(d.fields, b - 1)
  }

  function PathOfMemberBit(ms: Members, b: nat): (segs: seq<string>)
    requires b < MembersBits(ms)
    ensures segs != []
  {
    if b < TotalBits(ms.desc) then [ms.name] + PathOfBit(ms.desc, b)
    else PathOfMemberBit(ms.rest, b - TotalBits(ms.desc))
  }

  /** Every bit of the tree is some node's. */
  lemma {:induction false} BitHasNode(d: FieldDesc, b: nat)
    requires WellFormed(d) && b < TotalBits(d)
    ensures BitForPath(d, PathOfBit(d, b)) == Some(b)
  {
    if b != 0 {
      MemberBitHasNode(d.fields, b - 1);
    }
  }

  lemma {:induction false} MemberBitHasNode(ms: Members, b: nat)
    requires MembersOk(ms) && b < MembersBits(ms)
    ensures var segs := PathOfMemberBit(ms, b);
            && Lookup(ms, segs[0]).Some?
            && BitForPath(Lookup(ms, segs[0]).value, segs[1..]).Some?
            && OffsetOf(ms, segs[0]) + BitForPath(Lookup(ms, segs[0]).value, segs[1..]).value == b
  {
    if b < TotalBits(ms.desc) {
      BitHasNode(ms.desc, b);
    } else {
      MemberBitHasNode(ms.rest, b - TotalBits(ms.desc));
    }
  }

  /** No two nodes share a bit. */
  lemma {:induction false} BitDeterminesNode(d: FieldDesc, p: seq<string>, q: seq<string>)
    requires IsNode(d, p) && IsNode(d, q) && BitForPath(d, p) == BitForPath(d, q)
    ensures p == q
  {
    SpanTheorem(d, p, q);
    SpanTheorem(d, q, p);
  }

  // ---- Paths of the tree ----

  lemma {:induction false} DescAtConcat(d: FieldDesc, p: seq<string>, q: seq<string>)
    ensures DescAt(d, p + q) == if IsNode(d, p) then DescAt(DescAt(d, p).value, q) else None
    ensures IsNode(d, p) && IsNode(d, p + q) ==>
              BitForPath(d, p).Some? && BitForPath(DescAt(d, p).value, q).Some?
              && BitForPath(d, p + q) == Some(BitForPath(d, p).value + BitForPath(DescAt(d, p).value, q).value)
    decreases |p|
  {
    NodeSpan(d, p);
    NodeSpan(d, p + q);
    if p == [] {
      assert p + q == q;
    } else {
      assert (p + q)[1..] == p[1..] + q;
      if d.Structure? && Lookup(d.fields, p[0]).Some? {
        DescAtConcat(Lookup(d.fields, p[0]).value, p[1..], q);
        NodeSpan(Lookup(d.fields, p[0]).value, p[1..]);
      }
    }
  }

  lemma {:induction false} MemberNameOk(ms: Members, name: string)
    requires MembersOk(ms) && Lookup(ms, name).Some?
    ensures NameOk(name) && WellFormed(Lookup(ms, name).value)
  {
    if ms.name != name {
      MemberNameOk(ms.rest, name);
    }
  }

  /** The names on a path of a well-formed tree survive the trip through a dotted string. */
  lemma {:induction false} NodePathOk(d: FieldDesc, segs: seq<string>)
    requires WellFormed(d) && IsNode(d, segs)
    ensures PathOk(segs) && WellFormed(DescAt(d, segs).value)
    decreases |segs|
  {
    if segs != [] {
      MemberNameOk(d.fields, segs[0]);
      NodePathOk(Lookup(d.fields, segs[0]).value, segs[1..]);
      assert forall i | 0 < i < |segs| :: segs[i] == segs[1..][i - 1];
    }
  }

  /** A dotted string built from a node's path finds that node again. */
  lemma {:induction false} DottedPathFinds(d: FieldDesc, segs: seq<string>)
    requires WellFormed(d) && IsNode(d, segs)
    ensures Segments(Extend("", segs)) == segs
  {
    NodePathOk(d, segs);
    SegmentsOfExtend("", segs);
  }
}
