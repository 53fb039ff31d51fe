/**
 `src/pva/value.rs`: what `changed`, `collect_marked` and `changedSet` report about
 a tree's marks. The code works with bits and dotted strings; the theorems are
 about nodes, their ancestors and their leaves.
 */
module ChangeMarks {
  import opened DottedPath
  import opened PvDesc
  import opened PvValue

  predicate Within(b: nat, lo: nat, hi: nat) {
    lo <= b < hi
  }

  function Range(lo: nat, hi: nat): set<nat> {
    set b: nat | lo <= b < hi && Within(b, lo, hi)
  }

  /** The bits of the subtree at `segs`. */
  function Span(d: FieldDesc, segs: seq<string>): set<nat>
    requires IsNode(d, segs)
  {
    NodeSpan(d, segs);
    var start := BitForPath(d, segs).value;
    Range(start, start + TotalBits(DescAt(d, segs).value))
  }

  /** Whether the walk over `path`'s ancestors meets a mark. */
  predicate WalkMeetsMark(d: FieldDesc, marks: set<nat>, path: string) {
    exists w | w in AncestorWalk(path) :: Marked(d, marks, Segments(w))
  }

  // ---- changed() ----

  /** What `changed` computes for one field. */
  predicate FieldChanged(d: FieldDesc, marks: set<nat>, path: string)
    requires IsNode(d, Segments(path))
  {
    || Span(d, Segments(path)) * marks != {}
    || WalkMeetsMark(d, marks, path)
    || 0 in marks
  }

  /** The walk meets a mark only if some ancestor-or-self is marked, and a marked proper
      non-root ancestor is never missed. */
  lemma {:induction false} WalkIsAncestors(d: FieldDesc, marks: set<nat>, path: string)
    ensures WalkMeetsMark(d, marks, path) ==>
              exists k | 0 <= k <= |Segments(path)| :: Marked(d, marks, Segments(path)[..k])
    ensures forall k | 1 <= k < |Segments(path)| ::
              Marked(d, marks, Segments(path)[..k]) ==> WalkMeetsMark(d, marks, path)
  {
    if WalkMeetsMark(d, marks, path) {
      var w :| w in AncestorWalk(path) && Marked(d, marks, Segments(w));
      WalkVisitsPrefixes(path, w);
      assert Segments(path)[..|Segments(w)|] == Segments(w);
    }
    forall k | 1 <= k < |Segments(path)| && Marked(d, marks, Segments(path)[..k])
      ensures WalkMeetsMark(d, marks, path)
    {
      var w := WalkReachesEvery(path, k);
    }
  }

  ghost predicate Related(d: FieldDesc, marks: set<nat>, segs: seq<string>) {
    exists q :: IsNode(d, q) && Marked(d, marks, q) && (q <= segs || segs <= q)
  }

  /** A field counts as changed exactly if a mark is on it, above it or below it. */
  lemma {:induction false} ChangedMeansRelated(d: FieldDesc, marks: set<nat>, path: string)
    requires WellFormed(d) && IsNode(d, Segments(path))
    ensures FieldChanged(d, marks, path) <==> Related(d, marks, Segments(path))
  {
    if FieldChanged(d, marks, path) {
      ChangedIsRelated(d, marks, path);
    }
    if q :| IsNode(d, q) && Marked(d, marks, q) && (q <= Segments(path) || Segments(path) <= q) {
      RelatedIsChanged(d, marks, path, q);
    }
  }

  lemma {:induction false} ChangedIsRelated(d: FieldDesc, marks: set<nat>, path: string)
    requires WellFormed(d) && IsNode(d, Segments(path)) && FieldChanged(d, marks, path)
    ensures Related(d, marks, Segments(path))
  {
    var segs := Segments(path);
    if Span(d, segs) * marks != {} {
      NodeSpan(d, segs);
      var b :| b in Span(d, segs) * marks;
      BitHasNode(d, b);
      var q := PathOfBit(d, b);
      NodeSpan(d, q);
      SpanTheorem(d, segs, q);
      assert IsNode(d, q) && Marked(d, marks, q) && segs <= q;
    } else if WalkMeetsMark(d, marks, path) {
      WalkIsAncestors(d, marks, path);
      var k :| 0 <= k <= |segs| && Marked(d, marks, segs[..k]);
      NodeSpan(d, segs[..k]);
      assert IsNode(d, segs[..k]) && segs[..k] <= segs;
    } else {
      assert IsNode(d, []) && Marked(d, marks, []) && [] <= segs;
    }
  }

  lemma {:induction false} RelatedIsChanged(d: FieldDesc, marks: set<nat>, path: string, q: seq<string>)
    requires WellFormed(d) && IsNode(d, Segments(path)) && IsNode(d, q) && Marked(d, marks, q)
    requires q <= Segments(path) || Segments(path) <= q
    ensures FieldChanged(d, marks, path)
  {
    var segs := Segments(path);
    if segs <= q {
      SpanTheorem(d, segs, q);
      assert BitForPath(d, q).value in Span(d, segs) * marks;
    } else if q != [] {
      WalkIsAncestors(d, marks, path);
      assert segs[..|q|] == q;
    }
  }

  // ---- mark_span ----

  /** Clearing a field's span clears exactly its subtree. */
  lemma {:induction false} ClearingSpan(d: FieldDesc, marks: set<nat>, segs: seq<string>, q: seq<string>)
    requires IsNode(d, segs) && IsNode(d, q)
    ensures Marked(d, marks - Span(d, segs), q) <==> Marked(d, marks, q) && !(segs <= q)
    ensures Marked(d, marks + Span(d, segs), q) <==> Marked(d, marks, q) || segs <= q
  {
    SpanTheorem(d, segs, q);
  }

  // ---- collect_marked ----

  /** The paths `collect_marked` appends. */
  function Collected(d: FieldDesc, bit: nat, prefix: string, marks: set<nat>, inherited: bool, expand: bool): seq<string> {
    var marked := inherited || bit in marks;
    var own := marked && !(expand && d.Structure?);
    var here := if own && prefix != "" then [prefix] else [];
    if own && !expand then here
    else if d.Structure? then
      here + CollectedMembers(d.fields, bit + 1, prefix, marks, marked && expand, expand)
    else here
  }

  function CollectedMembers(ms: Members, bit: nat, prefix: string, marks: set<nat>, inherited: bool, expand: bool): seq<string> {
    if ms.NoMember? then []
    else
      Collected(ms.desc, bit, Join(prefix, ms.name), marks, inherited, expand)
      + CollectedMembers(ms.rest, bit + TotalBits(ms.desc), prefix, marks, inherited, expand)
  }

  method CollectMarked(d: FieldDesc, bit: nat, prefix: string, marks: set<nat>, inherited: bool, expand: bool, acc: seq<string>)
    returns (out: seq<string>)
    ensures out == acc + Collected(d, bit, prefix, marks, inherited, expand)
    decreases d
  {
    out := acc;
    var marked := inherited || bit in marks;
    var isStruct := d.Structure?;
    if marked && !(expand && isStruct) {
      if prefix != "" {
        out := out + [prefix];
      }
      if !expand {
        return;
      }
    }
    if isStruct {
      out := CollectChildren(d.fields, bit + 1, prefix, marks, marked && expand, expand, out);
    }
  }

  lemma ChildNext(done: seq<string>, ms: Members, bit: nat, prefix: string, marks: set<nat>, inherited: bool, expand: bool)
    requires ms.Member?
    ensures (done + Collected(ms.desc, bit, Join(prefix, ms.name), marks, inherited, expand))
            + CollectedMembers(ms.rest, bit + TotalBits(ms.desc), prefix, marks, inherited, expand)
            == done + CollectedMembers(ms, bit, prefix, marks, inherited, expand)
  {
  }

  /** The loop over a structure's children. */
  method CollectChildren(fields: Members, first: nat, prefix: string, marks: set<nat>, inherited: bool, expand: bool, acc: seq<string>)
    returns (out: seq<string>)
    ensures out == acc + CollectedMembers(fields, first, prefix, marks, inherited, expand)
    decreases fields
  {
    var ms, bit := fields, first;
    out := acc;
    while ms.Member?
      invariant bit >= 0 && (ms == fields || ms < fields)
      invariant out + CollectedMembers(ms, bit, prefix, marks, inherited, expand)
             == acc + CollectedMembers(fields, first, prefix, marks, inherited, expand)
      decreases ms
    {
      ChildNext(out, ms, bit, prefix, marks, inherited, expand);
      out := CollectMarked(ms.desc, bit, Join(prefix, ms.name), marks, inherited, expand, out);
      bit := bit + TotalBits(ms.desc);
      ms := ms.rest;
    }
  }

  // ---- collect_marked with expand ----

  /** Every covered leaf is collected. */
  lemma {:induction false} CoveredLeafCollected(
      d: FieldDesc, bit: nat, prefix: string, marks: set<nat>, inherited: bool, segs: seq<string>)
    requires IsLeaf(d, segs) && (inherited || CoveredAt(d, bit, marks, segs)) && Extend(prefix, segs) != ""
    ensures Extend(prefix, segs) in Collected(d, bit, prefix, marks, inherited, true)
    decreases d
  {
    if segs != [] {
      MemberLeafCollected(d.fields, bit + 1, prefix, marks, inherited || bit in marks, segs);
    }
  }

  lemma {:induction false} MemberLeafCollected(
      ms: Members, bit: nat, prefix: string, marks: set<nat>, inherited: bool, segs: seq<string>)
    requires segs != [] && Lookup(ms, segs[0]).Some? && IsLeaf(Lookup(ms, segs[0]).value, segs[1..])
    requires inherited || CoveredAt(Lookup(ms, segs[0]).value, bit + OffsetOf(ms, segs[0]), marks, segs[1..])
    requires Extend(prefix, segs) != ""
    ensures Extend(prefix, segs) in CollectedMembers(ms, bit, prefix, marks, inherited, true)
    decreases ms
  {
    if ms.name == segs[0] {
      CoveredLeafCollected(ms.desc, bit, Join(prefix, ms.name), marks, inherited, segs[1..]);
    } else {
      MemberLeafCollected(ms.rest, bit + TotalBits(ms.desc), prefix, marks, inherited, segs);
    }
  }

  /** Nothing but covered leaves is collected. */
  lemma {:induction false} CollectedIsCoveredLeaf(
      d: FieldDesc, bit: nat, prefix: string, marks: set<nat>, inherited: bool, s: string) returns (segs: seq<string>)
    requires WellFormed(d) && s in Collected(d, bit, prefix, marks, inherited, true)
    ensures IsLeaf(d, segs) && (inherited || CoveredAt(d, bit, marks, segs))
    ensures Extend(prefix, segs) == s && s != ""
    decreases d
  {
    if d.Structure? {
      segs := CollectedIsMemberLeaf(d.fields, bit + 1, prefix, marks, inherited || bit in marks, s);
    } else {
      segs := [];
    }
  }

  lemma {:induction false} CollectedIsMemberLeaf(
      ms: Members, bit: nat, prefix: string, marks: set<nat>, inherited: bool, s: string) returns (segs: seq<string>)
    requires MembersOk(ms) && s in CollectedMembers(ms, bit, prefix, marks, inherited, true)
    ensures segs != [] && Lookup(ms, segs[0]).Some? && IsLeaf(Lookup(ms, segs[0]).value, segs[1..])
    ensures inherited || CoveredAt(Lookup(ms, segs[0]).value, bit + OffsetOf(ms, segs[0]), marks, segs[1..])
    ensures Extend(prefix, segs) == s && s != ""
    decreases ms
  {
    if s in Collected(ms.desc, bit, Join(prefix, ms.name), marks, inherited, true) {
      var inner := CollectedIsCoveredLeaf(ms.desc, bit, Join(prefix, ms.name), marks, inherited, s);
      segs := [ms.name] + inner;
      assert segs[1..] == inner;
    } else {
      segs := CollectedIsMemberLeaf(ms.rest, bit + TotalBits(ms.desc), prefix, marks, inherited, s);
    }
  }

  // ---- collect_marked without expand ----

  /** The node is marked and nothing above it is. */
  predicate OutermostAt(d: FieldDesc, bit: nat, marks: set<nat>, segs: seq<string>)
    decreases |segs|
  {
    if bit in marks then segs == []
    else
      && segs != []
      && d.Structure?
      && Lookup(d.fields, segs[0]).Some?
      && OutermostAt(Lookup(d.fields, segs[0]).value, bit + 1 + OffsetOf(d.fields, segs[0]), marks, segs[1..])
  }

  lemma {:induction false} OutermostMeans(d: FieldDesc, bit: nat, marks: set<nat>, segs: seq<string>)
    ensures OutermostAt(d, bit, marks, segs)
            <==> MarkedAt(d, bit, marks, segs) && forall k | 0 <= k < |segs| :: !MarkedAt(d, bit, marks, segs[..k])
    decreases |segs|
  {
    assert segs != [] ==> segs[..0] == [];
    if segs != [] && d.Structure? && Lookup(d.fields, segs[0]).Some? && bit !in marks {
      var child := Lookup(d.fields, segs[0]).value;
      var cbit := bit + 1 + OffsetOf(d.fields, segs[0]);
      OutermostMeans(child, cbit, marks, segs[1..]);
      forall k | 1 <= k < |segs|
        ensures MarkedAt(d, bit, marks, segs[..k]) <==> MarkedAt(child, cbit, marks, segs[1..][..k - 1])
      {
        assert segs[..k][1..] == segs[1..][..k - 1];
      }
      if OutermostAt(child, cbit, marks, segs[1..]) {
        forall k | 0 <= k < |segs| ensures !MarkedAt(d, bit, marks, segs[..k]) {
        }
      } else if forall k | 0 <= k < |segs| :: !MarkedAt(d, bit, marks, segs[..k]) {
        forall j | 0 <= j < |segs[1..]| ensures !MarkedAt(child, cbit, marks, segs[1..][..j]) {
          assert !MarkedAt(d, bit, marks, segs[..j + 1]);
        }
      }
    }
  }

  lemma {:induction false} OutermostCollected(d: FieldDesc, bit: nat, prefix: string, marks: set<nat>, segs: seq<string>)
    requires OutermostAt(d, bit, marks, segs) && Extend(prefix, segs) != ""
    ensures Extend(prefix, segs) in Collected(d, bit, prefix, marks, false, false)
    decreases d
  {
    if bit !in marks {
      MemberOutermostCollected(d.fields, bit + 1, prefix, marks, segs);
    }
  }

  lemma {:induction false} MemberOutermostCollected(ms: Members, bit: nat, prefix: string, marks: set<nat>, segs: seq<string>)
    requires segs != [] && Lookup(ms, segs[0]).Some?
    requires OutermostAt(Lookup(ms, segs[0]).value, bit + OffsetOf(ms, segs[0]), marks, segs[1..])
    requires Extend(prefix, segs) != ""
    ensures Extend(prefix, segs) in CollectedMembers(ms, bit, prefix, marks, false, false)
    decreases ms
  {
    if ms.name == segs[0] {
      OutermostCollected(ms.desc, bit, Join(prefix, ms.name), marks, segs[1..]);
    } else {
      MemberOutermostCollected(ms.rest, bit + TotalBits(ms.desc), prefix, marks, segs);
    }
  }

  lemma {:induction false} CollectedIsOutermost(d: FieldDesc, bit: nat, prefix: string, marks: set<nat>, s: string)
    returns (segs: seq<string>)
    requires WellFormed(d) && s in Collected(d, bit, prefix, marks, false, false)
    ensures OutermostAt(d, bit, marks, segs) && Extend(prefix, segs) == s && s != ""
    decreases d
  {
    if bit in marks {
      segs := [];
    } else {
      segs := CollectedIsMemberOutermost(d.fields, bit + 1, prefix, marks, s);
    }
  }

  lemma {:induction false} CollectedIsMemberOutermost(ms: Members, bit: nat, prefix: string, marks: set<nat>, s: string)
    returns (segs: seq<string>)
    requires MembersOk(ms) && s in CollectedMembers(ms, bit, prefix, marks, false, false)
    ensures segs != [] && Lookup(ms, segs[0]).Some?
    ensures OutermostAt(Lookup(ms, segs[0]).value, bit + OffsetOf(ms, segs[0]), marks, segs[1..])
    ensures Extend(prefix, segs) == s && s != ""
    decreases ms
  {
    if s in Collected(ms.desc, bit, Join(prefix, ms.name), marks, false, false) {
      var inner := CollectedIsOutermost(ms.desc, bit, Join(prefix, ms.name), marks, s);
      segs := [ms.name] + inner;
      assert segs[1..] == inner;
    } else {
      segs := CollectedIsMemberOutermost(ms.rest, bit + TotalBits(ms.desc), prefix, marks, s);
    }
  }

  /** The outermost marked nodes stand for the covered leaves: a leaf is covered exactly when
      one of them is on its path, and then exactly one is. */
  lemma {:induction false} OutermostCoverTheCovered(d: FieldDesc, bit: nat, marks: set<nat>, segs: seq<string>)
    requires IsNode(d, segs)
    ensures CoveredAt(d, bit, marks, segs) <==> exists k | 0 <= k <= |segs| :: OutermostAt(d, bit, marks, segs[..k])
    ensures forall j, k | 0 <= j <= |segs| && 0 <= k <= |segs| ::
              OutermostAt(d, bit, marks, segs[..j]) && OutermostAt(d, bit, marks, segs[..k]) ==> j == k
    decreases |segs|
  {
    if bit in marks {
      assert OutermostAt(d, bit, marks, segs[..0]);
    } else if segs != [] {
      var child := Lookup(d.fields, segs[0]).value;
      var cbit := bit + 1 + OffsetOf(d.fields, segs[0]);
      OutermostCoverTheCovered(child, cbit, marks, segs[1..]);
      forall k | 1 <= k <= |segs|
        ensures OutermostAt(d, bit, marks, segs[..k]) <==> OutermostAt(child, cbit, marks, segs[1..][..k - 1])
      {
        assert segs[..k][1..] == segs[1..][..k - 1];
      }
      assert !OutermostAt(d, bit, marks, segs[..0]);
      if j :| 0 <= j <= |segs[1..]| && OutermostAt(child, cbit, marks, segs[1..][..j]) {
        assert OutermostAt(d, bit, marks, segs[..j + 1]);
      }
    }
  }

  // ---- changedSet ----

  function ToSet(paths: seq<string>): set<string> {
    set p | p in paths
  }

  /** `paths` with every dotted ancestor of each. */
  function WithParents(paths: set<string>): set<string> {
    paths + (set p, w | p in paths && w in AncestorWalk(p) :: w)
  }

  /** What `changedSet` computes for the view at `prefix`. */
  function ChangedSetOf(d: FieldDesc, marks: set<nat>, prefix: string, expand: bool, parents: bool): set<string>
    requires IsNode(d, Segments(prefix))
  {
    NodeSpan(d, Segments(prefix));
    var inherited := 0 in marks || WalkMeetsMark(d, marks, prefix);
    var paths := ToSet(Collected(DescAt(d, Segments(prefix)).value, BitForPath(d, Segments(prefix)).value,
                                 "", marks, inherited, expand));
    if parents then WithParents(paths) else paths
  }

  /** What is above the view, or the view itself, covers whatever is below. */
  lemma {:induction false} CoveredFromAbove(d: FieldDesc, marks: set<nat>, prefix: string, segs: seq<string>)
    requires IsNode(d, Segments(prefix) + segs) && (0 in marks || WalkMeetsMark(d, marks, prefix))
    ensures Covered(d, marks, Segments(prefix) + segs)
  {
    var view := Segments(prefix);
    var path := view + segs;
    CoveredMeansMarkedPrefix(d, 0, marks, path);
    if 0 in marks {
      assert MarkedAt(d, 0, marks, path[..0]);
    } else {
      WalkIsAncestors(d, marks, prefix);
      var k :| 0 <= k <= |view| && Marked(d, marks, view[..k]);
      assert path[..k] == view[..k];
    }
  }

  lemma {:induction false} CoveredFromWithin(d: FieldDesc, marks: set<nat>, view: seq<string>, segs: seq<string>)
    requires IsNode(d, view) && IsNode(d, view + segs) && BitForPath(d, view).Some?
    requires CoveredAt(DescAt(d, view).value, BitForPath(d, view).value, marks, segs)
    ensures Covered(d, marks, view + segs)
  {
    var path := view + segs;
    var sub, bit := DescAt(d, view).value, BitForPath(d, view).value;
    DescAtConcat(d, view, segs);
    CoveredMeansMarkedPrefix(d, 0, marks, path);
    CoveredMeansMarkedPrefix(sub, bit, marks, segs);
    var j :| 0 <= j <= |segs| && MarkedAt(sub, bit, marks, segs[..j]);
    MarkedThroughView(d, marks, view, segs, j);
    assert MarkedAt(d, 0, marks, path[..|view| + j]);
  }

  lemma {:induction false} CoveredFromSomewhere(d: FieldDesc, marks: set<nat>, prefix: string, segs: seq<string>)
    requires IsNode(d, Segments(prefix)) && IsNode(d, Segments(prefix) + segs)
    requires BitForPath(d, Segments(prefix)).Some? && Covered(d, marks, Segments(prefix) + segs)
    ensures || 0 in marks || WalkMeetsMark(d, marks, prefix)
            || CoveredAt(DescAt(d, Segments(prefix)).value, BitForPath(d, Segments(prefix)).value, marks, segs)
  {
    var view := Segments(prefix);
    var path := view + segs;
    DescAtConcat(d, view, segs);
    CoveredMeansMarkedPrefix(d, 0, marks, path);
    var k :| 0 <= k <= |path| && MarkedAt(d, 0, marks, path[..k]);
    if k < |view| {
      assert path[..k] == view[..k];
      assert k == 0 ==> path[..k] == [];
      WalkIsAncestors(d, marks, prefix);
      assert Marked(d, marks, view[..k]);
    } else {
      var sub, bit := DescAt(d, view).value, BitForPath(d, view).value;
      assert path[..k] == path[..|view| + (k - |view|)];
      MarkedThroughView(d, marks, view, segs, k - |view|);
      CoveredMeansMarkedPrefix(sub, bit, marks, segs);
      assert MarkedAt(sub, bit, marks, segs[..k - |view|]);
    }
  }

  /** Covered below a view: something above the view is marked, or it is covered within the view. */
  lemma {:induction false} CoveredThroughView(d: FieldDesc, marks: set<nat>, prefix: string, segs: seq<string>)
    requires IsNode(d, Segments(prefix)) && IsNode(d, Segments(prefix) + segs)
    ensures BitForPath(d, Segments(prefix)).Some?
    ensures Covered(d, marks, Segments(prefix) + segs)
            <==> || 0 in marks || WalkMeetsMark(d, marks, prefix)
                 || CoveredAt(DescAt(d, Segments(prefix)).value, BitForPath(d, Segments(prefix)).value, marks, segs)
  {
    NodeSpan(d, Segments(prefix));
    if Covered(d, marks, Segments(prefix) + segs) {
      CoveredFromSomewhere(d, marks, prefix, segs);
    } else if 0 in marks || WalkMeetsMark(d, marks, prefix) {
      CoveredFromAbove(d, marks, prefix, segs);
    } else if CoveredAt(DescAt(d, Segments(prefix)).value, BitForPath(d, Segments(prefix)).value, marks, segs) {
      CoveredFromWithin(d, marks, Segments(prefix), segs);
    }
  }

  lemma {:induction false} MarkedThroughView(d: FieldDesc, marks: set<nat>, view: seq<string>, segs: seq<string>, j: nat)
    requires IsNode(d, view) && IsNode(d, view + segs) && j <= |segs|
    ensures BitForPath(d, view).Some?
    ensures Marked(d, marks, (view + segs)[..|view| + j])
            <==> MarkedAt(DescAt(d, view).value, BitForPath(d, view).value, marks, segs[..j])
  {
    var path := view + segs;
    NodeSpan(d, view);
    assert path[..|view| + j] == view + segs[..j];
    assert path == path[..|view| + j] + path[|view| + j..];
    DescAtConcat(d, path[..|view| + j], path[|view| + j..]);
    DescAtConcat(d, view, segs[..j]);
    NodeSpan(d, path[..|view| + j]);
  }

  /** With `expand`, a view's changed set is exactly its covered leaves, each under the path
      that leads to it from the view. */
  lemma {:induction false} ExpandedSetIsExact(d: FieldDesc, marks: set<nat>, prefix: string, s: string)
    requires WellFormed(d) && IsNode(d, Segments(prefix))
    ensures s in ChangedSetOf(d, marks, prefix, true, false)
            <==> exists segs :: && segs != [] && IsLeaf(d, Segments(prefix) + segs)
                                && Covered(d, marks, Segments(prefix) + segs) && Extend("", segs) == s
  {
    var view := Segments(prefix);
    NodeSpan(d, view);
    NodePathOk(d, view);
    var sub, bit := DescAt(d, view).value, BitForPath(d, view).value;
    var inherited := 0 in marks || WalkMeetsMark(d, marks, prefix);
    if s in ChangedSetOf(d, marks, prefix, true, false) {
      var segs := CollectedIsCoveredLeaf(sub, bit, "", marks, inherited, s);
      DescAtConcat(d, view, segs);
      CoveredThroughView(d, marks, prefix, segs);
      assert segs != [];
    }
    if segs :| segs != [] && IsLeaf(d, view + segs) && Covered(d, marks, view + segs) && Extend("", segs) == s {
      DescAtConcat(d, view, segs);
      CoveredThroughView(d, marks, prefix, segs);
      NodePathOk(sub, segs);
      ExtendNonEmpty("", segs);
      CoveredLeafCollected(sub, bit, "", marks, inherited, segs);
    }
  }

  /** A sub-view's expanded set is the root's with the view's prefix stripped. */
  lemma {:induction false} SubViewIsStrippedRoot(d: FieldDesc, marks: set<nat>, prefix: string, segs: seq<string>)
    requires WellFormed(d) && IsNode(d, Segments(prefix)) && segs != [] && IsNode(d, Segments(prefix) + segs)
    ensures Segments("") == []
    ensures Extend("", segs) in ChangedSetOf(d, marks, prefix, true, false)
            <==> Extend("", Segments(prefix) + segs) in ChangedSetOf(d, marks, "", true, false)
  {
    assert Segments("") == [];
    assert [] + (Segments(prefix) + segs) == Segments(prefix) + segs;
    LeafInExpandedSet(d, marks, prefix, segs);
    LeafInExpandedSet(d, marks, "", Segments(prefix) + segs);
  }

  lemma {:induction false} LeafInExpandedSet(d: FieldDesc, marks: set<nat>, prefix: string, segs: seq<string>)
    requires WellFormed(d) && IsNode(d, Segments(prefix)) && segs != [] && IsNode(d, Segments(prefix) + segs)
    ensures Extend("", segs) in ChangedSetOf(d, marks, prefix, true, false)
            <==> IsLeaf(d, Segments(prefix) + segs) && Covered(d, marks, Segments(prefix) + segs)
  {
    var view := Segments(prefix);
    ExpandedSetIsExact(d, marks, prefix, Extend("", segs));
    SuffixPathOk(d, view, segs);
    SegmentsOfExtend("", segs);
    if t :| t != [] && IsLeaf(d, view + t) && Covered(d, marks, view + t) && Extend("", t) == Extend("", segs) {
      SuffixPathOk(d, view, t);
      SegmentsOfExtend("", t);
      assert Segments("") == [] && [] + t == t && [] + segs == segs;
    }
  }

  lemma {:induction false} SuffixPathOk(d: FieldDesc, view: seq<string>, segs: seq<string>)
    requires WellFormed(d) && IsNode(d, view + segs)
    ensures PathOk(segs)
  {
    NodePathOk(d, view + segs);
    assert forall i | 0 <= i < |segs| :: segs[i] == (view + segs)[|view| + i];
  }

  /** Below a node that is not covered, outermost is a matter of the subtree; below a covered one
      nothing is outermost. */
  lemma {:induction false} OutermostThroughView(d: FieldDesc, bit: nat, marks: set<nat>, view: seq<string>, segs: seq<string>)
    requires IsNode(d, view) && BitForPath(d, view).Some?
    ensures !CoveredAt(d, bit, marks, view) ==>
              (OutermostAt(d, bit, marks, view + segs)
               <==> OutermostAt(DescAt(d, view).value, bit + BitForPath(d, view).value, marks, segs))
    ensures CoveredAt(d, bit, marks, view) && segs != [] ==> !OutermostAt(d, bit, marks, view + segs)
    decreases |view|
  {
    if view == [] {
      assert view + segs == segs;
    } else {
      var child := Lookup(d.fields, view[0]).value;
      assert (view + segs)[1..] == view[1..] + segs;
      OutermostThroughView(child, bit + 1 + OffsetOf(d.fields, view[0]), marks, view[1..], segs);
    }
  }

  lemma {:induction false} PlainSetOf(d: FieldDesc, marks: set<nat>, prefix: string)
    requires IsNode(d, Segments(prefix))
    ensures BitForPath(d, Segments(prefix)).Some?
    ensures ChangedSetOf(d, marks, prefix, false, false)
            == if Covered(d, marks, Segments(prefix)) then {}
               else ToSet(Collected(DescAt(d, Segments(prefix)).value, BitForPath(d, Segments(prefix)).value,
                                    "", marks, false, false))
  {
    NodeSpan(d, Segments(prefix));
    assert Segments(prefix) + [] == Segments(prefix);
    CoveredThroughView(d, marks, prefix, []);
  }

  lemma {:induction false} InPlainSet(sub: FieldDesc, bit: nat, marks: set<nat>, s: string)
    requires WellFormed(sub)
    ensures s in ToSet(Collected(sub, bit, "", marks, false, false))
            <==> exists segs :: segs != [] && OutermostAt(sub, bit, marks, segs) && Extend("", segs) == s
  {
    if s in Collected(sub, bit, "", marks, false, false) {
      var segs := CollectedIsOutermost(sub, bit, "", marks, s);
      assert segs != [];
    }
    if segs :| segs != [] && OutermostAt(sub, bit, marks, segs) && Extend("", segs) == s {
      OutermostMeans(sub, bit, marks, segs);
      NodeSpan(sub, segs);
      NodePathOk(sub, segs);
      ExtendNonEmpty("", segs);
      OutermostCollected(sub, bit, "", marks, segs);
    }
  }

  /** Without `expand`, a view's changed set is exactly the outermost marked nodes below it, each
      under the path that leads to it from the view: nothing, if the view or anything above it is
      marked. */
  lemma {:induction false} PlainSetIsOutermost(d: FieldDesc, marks: set<nat>, prefix: string, s: string)
    requires WellFormed(d) && IsNode(d, Segments(prefix))
    ensures s in ChangedSetOf(d, marks, prefix, false, false)
            <==> exists segs :: segs != [] && OutermostAt(d, 0, marks, Segments(prefix) + segs) && Extend("", segs) == s
    ensures Covered(d, marks, Segments(prefix)) ==> ChangedSetOf(d, marks, prefix, false, false) == {}
  {
    var view := Segments(prefix);
    PlainSetOf(d, marks, prefix);
    NodePathOk(d, view);
    InPlainSet(DescAt(d, view).value, BitForPath(d, view).value, marks, s);
    forall segs
      ensures !Covered(d, marks, view) ==>
                (OutermostAt(d, 0, marks, view + segs)
                 <==> OutermostAt(DescAt(d, view).value, BitForPath(d, view).value, marks, segs))
      ensures Covered(d, marks, view) && segs != [] ==> !OutermostAt(d, 0, marks, view + segs)
    {
      OutermostThroughView(d, 0, marks, view, segs);
    }
  }

  /** A marked root shows up as nothing at all without `expand`: its path is empty. */
  lemma {:induction false} MarkedRootIsInvisible(d: FieldDesc, marks: set<nat>)
    requires 0 in marks
    ensures IsNode(d, Segments(""))
    ensures ChangedSetOf(d, marks, "", false, false) == {} && FieldChanged(d, marks, "")
  {
    assert Segments("") == [];
  }

  lemma {:induction false} WalkIsTransitive(path: string, w: string, v: string)
    requires w in AncestorWalk(path) && v in AncestorWalk(w)
    ensures v in AncestorWalk(path)
    decreases |path|
  {
    var i := LastDot(path).value;
    if w != path[..i] {
      WalkIsTransitive(path[..i], w, v);
    }
  }

  predicate AncestorClosed(paths: set<string>) {
    forall p, w | p in paths && w in AncestorWalk(p) :: w in paths
  }

  /** `parents` gives the least superset that contains every dotted ancestor of its members. */
  lemma {:induction false} ParentsIsLeastClosed(paths: set<string>, other: set<string>)
    ensures paths <= WithParents(paths) && AncestorClosed(WithParents(paths))
    ensures paths <= other && AncestorClosed(other) ==> WithParents(paths) <= other
  {
    forall p, w | p in WithParents(paths) && w in AncestorWalk(p) ensures w in WithParents(paths) {
      if p !in paths {
        var q :| q in paths && p in AncestorWalk(q);
        WalkIsTransitive(q, p, w);
      }
    }
  }
}
