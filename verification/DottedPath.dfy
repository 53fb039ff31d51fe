/**
 Dotted field paths, as `src/pva/value.rs` handles them: `join`, the
 `split('.')`-and-skip-empty reading of a path, and the `rfind('.')` walk to a
 field's ancestors. A path is a plain string; its meaning is its segments.
 */
module DottedPath {
  import opened Common

  /** A member name that a path can address. */
  predicate NameOk(name: string) {
    name != "" && '.' !in name
  }

  predicate PathOk(segs: seq<string>) {
    forall i | 0 <= i < |segs| :: NameOk(segs[i])
  }

  function Join(prefix: string, key: string): string {
    if prefix == "" then key
    else if key == "" then prefix
    else prefix + "." + key
  }

  function FirstDot(s: string): (i: nat)
    ensures i <= |s| && (forall k | 0 <= k < i :: s[k] != '.') && (i < |s| ==> s[i] == '.')
  {
    if s == "" || s[0] == '.' then 0 else 1 + FirstDot(s[1..])
  }

  function LastDot(s: string): (r: Option<nat>)
    ensures r.None? ==> '.' !in s
    ensures r.Some? ==> r.value < |s| && s[r.value] == '.' && '.' !in s[r.value + 1..]
  {
    if s == "" then None
    else if s[|s| - 1] == '.' then Some(|s| - 1)
    else
      var r := LastDot(s[..|s| - 1]);
      assert s == s[..|s| - 1] + [s[|s| - 1]];
      assert r.Some? ==> s[r.value + 1..] == s[..|s| - 1][r.value + 1..] + [s[|s| - 1]];
      r
  }

  /** A dot-free piece of a path: nothing when empty, else itself. */
  function Piece(s: string): seq<string> {
    if s == "" then [] else [s]
  }

  /** The non-empty pieces between the dots. */
  function Segments(path: string): seq<string>
    decreases |path|
  {
    var i := FirstDot(path);
    if i == |path| then Piece(path)
    else Piece(path[..i]) + Segments(path[i + 1..])
  }

  /** The path reached from `prefix` by descending member by member. */
  function Extend(prefix: string, segs: seq<string>): string
    decreases |segs|
  {
    if segs == [] then prefix else Extend(Join(prefix, segs[0]), segs[1..])
  }

  /** The `rfind('.')` walk: every string it visits, innermost first. */
  function AncestorWalk(path: string): seq<string>
    decreases |path|
  {
    match LastDot(path)
    case None => []
    case Some(i) => [path[..i]] + AncestorWalk(path[..i])
  }

  /** The first dot is where a dot-free head ends. */
  lemma {:induction false} FirstDotOf(a: string, b: string)
    requires '.' !in a && (b != "" ==> b[0] == '.')
    ensures FirstDot(a + b) == |a|
  {
    assert forall k | 0 <= k < |a| :: (a + b)[k] == a[k];
    if b != "" {
      assert (a + b)[|a|] == '.';
    }
  }

  /** One step of reading a path: a dot-free head, a dot, and the rest. */
  lemma {:induction false} SegmentsStep(head: string, rest: string)
    requires '.' !in head
    ensures Segments(head + "." + rest) == Piece(head) + Segments(rest)
  {
    var whole := head + "." + rest;
    assert whole == head + ("." + rest);
    FirstDotOf(head, "." + rest);
    assert whole[..|head|] == head && whole[|head| + 1..] == rest;
  }

  lemma {:induction false} SegmentsDotFree(s: string)
    requires '.' !in s
    ensures Segments(s) == Piece(s)
  {
    FirstDotOf(s, "");
    assert s + "" == s;
  }

  lemma {:induction false} SegmentsConcat(a: string, b: string)
    ensures Segments(a + "." + b) == Segments(a) + Segments(b)
    decreases |a|
  {
    var i := FirstDot(a);
    if i == |a| {
      SegmentsStep(a, b);
    } else {
      var rest := a[i + 1..];
      assert a + "." + b == a[..i] + "." + (rest + "." + b);
      SegmentsStep(a[..i], rest + "." + b);
      SegmentsConcat(rest, b);
      ConcatAssoc(Piece(a[..i]), Segments(rest), Segments(b));
    }
  }

  lemma ConcatAssoc<T>(a: seq<T>, b: seq<T>, c: seq<T>)
    ensures a + (b + c) == a + b + c
  {
  }

  /** Joining strings concatenates what they address, whatever the strings are. */
  lemma {:induction false} SegmentsOfJoin(prefix: string, key: string)
    ensures Segments(Join(prefix, key)) == Segments(prefix) + Segments(key)
  {
    assert Segments("") == [];
    if prefix != "" && key != "" {
      SegmentsConcat(prefix, key);
    }
  }

  /** Building a path from well-formed names and reading it back gives the names. */
  lemma {:induction false} SegmentsOfExtend(prefix: string, segs: seq<string>)
    requires PathOk(segs)
    ensures Segments(Extend(prefix, segs)) == Segments(prefix) + segs
    decreases |segs|
  {
    if segs != [] {
      SegmentsOfJoin(prefix, segs[0]);
      SegmentsDotFree(segs[0]);
      SegmentsOfExtend(Join(prefix, segs[0]), segs[1..]);
      ConcatAssoc(Segments(prefix), [segs[0]], segs[1..]);
      assert segs == [segs[0]] + segs[1..];
    }
  }

  lemma {:induction false} SplitAtLastDot(path: string)
    requires LastDot(path).Some?
    ensures var i := LastDot(path).value;
            Segments(path) == Segments(path[..i]) + Piece(path[i + 1..])
  {
    var i := LastDot(path).value;
    assert path == path[..i] + "." + path[i + 1..];
    SegmentsConcat(path[..i], path[i + 1..]);
    SegmentsDotFree(path[i + 1..]);
  }

  /** Whatever the path, the walk only ever visits ancestors-or-self. */
  lemma {:induction false} WalkVisitsPrefixes(path: string, w: string)
    requires w in AncestorWalk(path)
    ensures Segments(w) <= Segments(path)
    decreases |path|
  {
    var i := LastDot(path).value;
    SplitAtLastDot(path);
    if w != path[..i] {
      WalkVisitsPrefixes(path[..i], w);
    }
  }

  /** Whatever the path, the walk reaches every proper non-root ancestor. */
  lemma {:induction false} WalkReachesEvery(path: string, k: nat) returns (w: string)
    requires 1 <= k < |Segments(path)|
    ensures w in AncestorWalk(path) && Segments(w) == Segments(path)[..k]
    decreases |path|
  {
    if LastDot(path).None? {
      SegmentsDotFree(path);
      assert false;
    }
    var parent := path[..LastDot(path).value];
    SplitAtLastDot(path);
    assert Segments(path)[..k] == Segments(parent)[..k];
    if k == |Segments(parent)| {
      w := parent;
    } else {
      w := WalkReachesEvery(parent, k);
    }
    StepsUp(path, w);
  }

  lemma StepsUp(path: string, w: string)
    requires LastDot(path).Some?
    ensures var parent := path[..LastDot(path).value];
            w == parent || w in AncestorWalk(parent) ==> w in AncestorWalk(path)
  {
  }

  lemma {:induction false} ExtendLast(prefix: string, segs: seq<string>)
    requires segs != []
    ensures Extend(prefix, segs) == Join(Extend(prefix, segs[..|segs| - 1]), segs[|segs| - 1])
    decreases |segs|
  {
    if |segs| > 1 {
      ExtendLast(Join(prefix, segs[0]), segs[1..]);
      assert segs[1..][..|segs| - 2] == segs[..|segs| - 1][1..];
    }
  }

  lemma {:induction false} ExtendNonEmpty(prefix: string, segs: seq<string>)
    requires PathOk(segs) && (prefix != "" || segs != [])
    ensures Extend(prefix, segs) != ""
    decreases |segs|
  {
    if segs != [] {
      ExtendNonEmpty(Join(prefix, segs[0]), segs[1..]);
    }
  }

  /** The last dot is the one in front of a dot-free tail. */
  lemma {:induction false} LastDotOf(outer: string, last: string)
    requires '.' !in last
    ensures LastDot(outer + "." + last) == Some(|outer|)
    ensures (outer + "." + last)[..|outer|] == outer
    decreases |last|
  {
    var path := outer + "." + last;
    if last != "" {
      var init := last[..|last| - 1];
      assert path[..|path| - 1] == outer + "." + init;
      LastDotOf(outer, init);
    }
  }

  lemma {:induction false} WalkFromJoin(outer: string, last: string)
    requires '.' !in last
    ensures AncestorWalk(outer + "." + last) == [outer] + AncestorWalk(outer)
  {
    LastDotOf(outer, last);
  }

  /** For a canonical path the walk is exactly its proper non-root ancestors, innermost first. */
  lemma {:induction false} WalkOfCanonical(segs: seq<string>)
    requires PathOk(segs) && segs != []
    ensures var walk := AncestorWalk(Extend("", segs));
            && |walk| == |segs| - 1
            && forall j | 0 <= j < |walk| :: walk[j] == Extend("", segs[..|segs| - 1 - j])
    decreases |segs|
  {
    var last := segs[|segs| - 1];
    var init := segs[..|segs| - 1];
    ExtendLast("", segs);
    var path := Extend("", segs);
    if |segs| == 1 {
      assert path == last;
      assert LastDot(path).None?;
    } else {
      var outer := Extend("", init);
      ExtendNonEmpty("", init);
      assert path == outer + "." + last;
      WalkFromJoin(outer, last);
      WalkOfCanonical(init);
      var walk := [outer] + AncestorWalk(outer);
      forall j | 0 <= j < |walk| ensures walk[j] == Extend("", segs[..|segs| - 1 - j]) {
        if j > 0 {
          assert init[..|init| - 1 - (j - 1)] == segs[..|segs| - 1 - j];
        }
      }
    }
  }
}
