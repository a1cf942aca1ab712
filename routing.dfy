/**
 * The router collaborator of the layout: a location given as its path
 * segments, and the `replace` navigation that swaps the visible screen
 * without adding a back-history entry.
 *
 * A path such as "/auth/login" is turned into segments by splitting it at
 * '/' and dropping empty pieces, so "/auth/login" has segments
 * ["auth", "login"] and "/" has none.
 */
module Routing {

  /** A path segment: non-empty and free of the separator. */
  predicate IsSegment(s: string) {
    s != [] && '/' !in s
  }

  /** Length of the prefix of `p` that precedes its first '/' (all of `p` when it has none). */
  function SegmentLength(p: string): (n: nat)
    ensures n <= |p|
    ensures forall i | 0 <= i < n :: p[i] != '/'
    ensures n == |p| || p[n] == '/'
  {
    if p == [] || p[0] == '/' then 0 else 1 + SegmentLength(p[1..])
  }

  /** The segments of a path, left to right. */
  function SplitPath(p: string): (segs: seq<string>)
    ensures forall i | 0 <= i < |segs| :: IsSegment(segs[i])
    decreases |p|
  {
    if p == [] then []
    else if p[0] == '/' then SplitPath(p[1..])
    else
      var n := SegmentLength(p);
      assert forall j | 0 <= j < n :: p[..n][j] == p[j];
      [p[..n]] + SplitPath(p[n..])
  }

  /** The canonical path of a segment list: each segment preceded by '/'. */
  function JoinPath(segs: seq<string>): (p: string)
    ensures p == [] <==> segs == []
    ensures p != [] ==> p[0] == '/'
  {
    if segs == [] then [] else "/" + segs[0] + JoinPath(segs[1..])
  }

  /** A segment followed by nothing or by a '/' ends exactly where the segment does. */
  lemma {:induction false} SegmentLengthOfPrefix(s: string, rest: string)
    requires IsSegment(s)
    requires rest == [] || rest[0] == '/'
    ensures SegmentLength(s + rest) == |s|
  {
    assert (s + rest)[1..] == s[1..] + rest;
    if s[1..] != [] {
      SegmentLengthOfPrefix(s[1..], rest);
    }
  }

  /** Splitting the canonical path of well-formed segments gives those segments back. */
  lemma {:induction false} SplitJoin(segs: seq<string>)
    requires forall i | 0 <= i < |segs| :: IsSegment(segs[i])
    ensures SplitPath(JoinPath(segs)) == segs
  {
    if segs != [] {
      var s, rest := segs[0], JoinPath(segs[1..]);
      var p := "/" + s + rest;
      assert JoinPath(segs) == p;
      assert p[1..] == s + rest;
      SegmentLengthOfPrefix(s, rest);
      assert (s + rest)[..|s|] == s;
      assert (s + rest)[|s|..] == rest;
      SplitJoin(segs[1..]);
    }
  }

  /**
   * The router's view of navigation: the current location and the back
   * history beneath it (the screens a back gesture would return to).
   */
  class Router {
    var segments: seq<string>
    var history: seq<seq<string>>

    constructor (back: seq<seq<string>>, current: seq<string>)
      ensures segments == current && history == back
    {
      segments := current;
      history := back;
    }

    /** Show the screen at `path` in place of the current one; the back history is untouched. */
    method Replace(path: string)
      modifies this
      ensures segments == SplitPath(path)
      ensures history == old(history)
    {
      segments := SplitPath(path);
    }
  }
}
