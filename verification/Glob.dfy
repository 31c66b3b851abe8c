/**
The restricted glob language, and the matcher that remembers only its last star.
*/
module Glob {
  import opened Wrappers
  import opened Encoding

  const STAR: Byte := 42
  const SLASH: Byte := 47
  const DOUBLE_STAR: Bytes := [STAR, STAR]

  // ---- what a pattern means ----

  /**
  `s` splits into one piece per item of the pattern: any run for an item that `any` accepts,
  and otherwise a single element that the item `fits`.
  */
  predicate Denotes<P, T>(any: P -> bool, fits: (P, T) -> bool, pattern: seq<P>, s: seq<T>)
    decreases |pattern|
  {
    if pattern == [] then s == []
    else if any(pattern[0]) then exists k :: 0 <= k <= |s| && Denotes(any, fits, pattern[1..], s[k..])
    else s != [] && fits(pattern[0], s[0]) && Denotes(any, fits, pattern[1..], s[1..])
  }

  function Concat<T>(pieces: seq<seq<T>>): seq<T> {
    if pieces == [] then [] else pieces[0] + Concat(pieces[1..])
  }

  predicate PieceFits<P, T>(any: P -> bool, fits: (P, T) -> bool, item: P, piece: seq<T>) {
    any(item) || (|piece| == 1 && fits(item, piece[0]))
  }

  predicate IsSplit<P, T>(any: P -> bool, fits: (P, T) -> bool, pattern: seq<P>, pieces: seq<seq<T>>) {
    |pieces| == |pattern| && forall i :: 0 <= i < |pattern| ==> PieceFits(any, fits, pattern[i], pieces[i])
  }

  /** The pieces a match consists of. */
  lemma {:induction false} MatchSplits<P, T(!new)>(any: P -> bool, fits: (P, T) -> bool, pattern: seq<P>, s: seq<T>)
    returns (pieces: seq<seq<T>>)
    requires Denotes(any, fits, pattern, s)
    ensures IsSplit(any, fits, pattern, pieces) && Concat(pieces) == s
  {
    if pattern == [] {
      pieces := [];
    } else {
      var k := 1;
      if any(pattern[0]) {
        k :| 0 <= k <= |s| && Denotes(any, fits, pattern[1..], s[k..]);
      }
      var rest := MatchSplits(any, fits, pattern[1..], s[k..]);
      pieces := [s[..k]] + rest;
      assert pieces[1..] == rest;
      assert s[..k] + s[k..] == s;
    }
  }

  lemma {:induction false} SplitMatches<P, T>(
    any: P -> bool, fits: (P, T) -> bool, pattern: seq<P>, pieces: seq<seq<T>>)
    requires IsSplit(any, fits, pattern, pieces)
    ensures Denotes(any, fits, pattern, Concat(pieces))
  {
    if pattern != [] {
      SplitMatches(any, fits, pattern[1..], pieces[1..]);
      var s := Concat(pieces);
      assert PieceFits(any, fits, pattern[0], pieces[0]);
      assert s[|pieces[0]|..] == Concat(pieces[1..]);
    }
  }

  /** The recursive reading and the piecewise one agree. */
  lemma DenotesIffSplit<P(!new), T(!new)>(any: P -> bool, fits: (P, T) -> bool, pattern: seq<P>, s: seq<T>)
    ensures Denotes(any, fits, pattern, s) <==>
      exists pieces :: IsSplit(any, fits, pattern, pieces) && Concat(pieces) == s
  {
    if Denotes(any, fits, pattern, s) {
      var pieces := MatchSplits(any, fits, pattern, s);
    }
    forall pieces | IsSplit(any, fits, pattern, pieces) && Concat(pieces) == s
      ensures Denotes(any, fits, pattern, s)
    {
      SplitMatches(any, fits, pattern, pieces);
    }
  }

  // ---- within one segment ----

  predicate IsStar(b: Byte) { b == STAR }

  predicate SameByte(a: Byte, b: Byte) { a == b }

  /** The segment is in the language of the pattern: a star is any run, every other byte itself. */
  predicate Wild(pattern: Bytes, segment: Bytes) {
    Denotes(IsStar, SameByte, pattern, segment)
  }

  /** A segment matches exactly if it splits into a run for each star and the other bytes in place. */
  lemma WildIffSplit(pattern: Bytes, segment: Bytes)
    ensures Wild(pattern, segment) <==>
      exists pieces: seq<Bytes> :: IsSplit(IsStar, SameByte, pattern, pieces) && Concat(pieces) == segment
  {
    DenotesIffSplit(IsStar, SameByte, pattern, segment);
  }

  predicate Literal(pattern: Bytes) {
    forall i :: 0 <= i < |pattern| ==> pattern[i] != STAR
  }

  predicate AllStars(pattern: Bytes) {
    forall i :: 0 <= i < |pattern| ==> pattern[i] == STAR
  }

  /** A leading star can take more. */
  lemma StarTakesMore(pattern: Bytes, s: Bytes, k: nat)
    requires pattern != [] && pattern[0] == STAR && k <= |s| && Wild(pattern, s[k..])
    ensures Wild(pattern, s)
  {
    var rest := s[k..];
    var m :| 0 <= m <= |rest| && Denotes(IsStar, SameByte, pattern[1..], rest[m..]);
    assert rest[m..] == s[k + m..];
  }

  /** A leading star takes nothing, or takes one byte and stands there still. */
  lemma StarStep(pattern: Bytes, s: Bytes)
    requires pattern != [] && pattern[0] == STAR
    ensures Wild(pattern, s) <==> Wild(pattern[1..], s) || (s != [] && Wild(pattern, s[1..]))
  {
    if Wild(pattern, s) {
      var k :| 0 <= k <= |s| && Denotes(IsStar, SameByte, pattern[1..], s[k..]);
      if k == 0 {
        assert s[0..] == s;
      } else {
        assert s[1..][k - 1..] == s[k..];
      }
    }
    if Wild(pattern[1..], s) {
      assert s[0..] == s;
    } else if s != [] && Wild(pattern, s[1..]) {
      StarTakesMore(pattern, s, 1);
    }
  }

  /** A literal prefix matches exactly itself. */
  lemma {:induction false} LiteralPrefix(prefix: Bytes, rest: Bytes, s: Bytes)
    requires Literal(prefix)
    ensures Wild(prefix + rest, s) <==> |prefix| <= |s| && prefix == s[..|prefix|] && Wild(rest, s[|prefix|..])
  {
    if prefix == [] {
      assert prefix + rest == rest && s[0..] == s;
    } else {
      assert (prefix + rest)[1..] == prefix[1..] + rest;
      if s != [] && s[0] == prefix[0] {
        LiteralPrefix(prefix[1..], rest, s[1..]);
        if |prefix| <= |s| {
          assert s[1..][|prefix| - 1..] == s[|prefix|..];
          assert s[..|prefix|] == [s[0]] + s[1..][..|prefix| - 1];
        }
      }
    }
  }

  lemma {:induction false} OnlyStarsMatchNothing(pattern: Bytes)
    ensures Wild(pattern, []) <==> AllStars(pattern)
  {
    if pattern != [] {
      OnlyStarsMatchNothing(pattern[1..]);
      var none: Bytes := [];
      assert none[0..] == none;
      assert AllStars(pattern) <==> pattern[0] == STAR && AllStars(pattern[1..]);
    }
  }

  // ---- the matcher's state ----

  /** The pattern from the last star on: the star, the literal matched since, the rest. */
  predicate Tracking(p: Bytes, s: Bytes, pi: nat, si: nat, star: nat, backtrack: nat) {
    && star < pi <= |p| && backtrack <= si <= |s|
    && p[star] == STAR
    && Literal(p[star + 1..pi])
    && p[star + 1..pi] == s[backtrack..si]
  }

  /** What is left to decide, given that the star has taken nothing beyond `backtrack`. */
  lemma LiteralAfterStar(p: Bytes, s: Bytes, pi: nat, si: nat, star: nat, backtrack: nat)
    requires Tracking(p, s, pi, si, star, backtrack)
    ensures Wild(p[star + 1..], s[backtrack..]) <==> Wild(p[pi..], s[si..])
  {
    assert p[star + 1..] == p[star + 1..pi] + p[pi..];
    LiteralPrefix(p[star + 1..pi], p[pi..], s[backtrack..]);
    assert s[backtrack..][..si - backtrack] == s[backtrack..si];
    assert s[backtrack..][si - backtrack..] == s[si..];
  }

  /** The matched literal can only be found again further right. */
  lemma LiteralLater(p: Bytes, s: Bytes, pi: nat, si: nat, star: nat, backtrack: nat, k: nat)
    requires Tracking(p, s, pi, si, star, backtrack) && backtrack + k <= |s|
    requires Wild(p[star + 1..], s[backtrack + k..])
    ensures si + k <= |s| && Wild(p[pi..], s[si + k..])
  {
    var here := s[backtrack + k..];
    assert p[star + 1..] == p[star + 1..pi] + p[pi..];
    LiteralPrefix(p[star + 1..pi], p[pi..], here);
    assert here[si - backtrack..] == s[si + k..];
  }

  lemma StarAt(p: Bytes, s: Bytes, star: nat, backtrack: nat)
    returns (k: nat)
    requires star < |p| && p[star] == STAR && backtrack <= |s| && Wild(p[star..], s[backtrack..])
    ensures backtrack + k <= |s| && Wild(p[star + 1..], s[backtrack + k..])
  {
    var rest, here := p[star..], s[backtrack..];
    k :| 0 <= k <= |here| && Denotes(IsStar, SameByte, rest[1..], here[k..]);
    assert rest[1..] == p[star + 1..] && here[k..] == s[backtrack + k..];
  }

  lemma StarTakesNothing(p: Bytes, s: Bytes, star: nat, backtrack: nat)
    requires star < |p| && p[star] == STAR && backtrack <= |s| && Wild(p[star + 1..], s[backtrack..])
    ensures Wild(p[star..], s[backtrack..])
  {
    assert p[star..][1..] == p[star + 1..];
    StarStep(p[star..], s[backtrack..]);
  }

  /** A new star makes the previous one irrelevant: whatever it might still take, the new one can. */
  lemma NewStar(p: Bytes, s: Bytes, pi: nat, si: nat, star: nat, backtrack: nat)
    requires Tracking(p, s, pi, si, star, backtrack) && pi < |p| && p[pi] == STAR
    ensures Wild(p[star..], s[backtrack..]) <==> Wild(p[pi..], s[si..])
  {
    if Wild(p[star..], s[backtrack..]) {
      var k := StarAt(p, s, star, backtrack);
      LiteralLater(p, s, pi, si, star, backtrack, k);
      assert s[si..][k..] == s[si + k..];
      StarTakesMore(p[pi..], s[si..], k);
    }
    if Wild(p[pi..], s[si..]) {
      LiteralAfterStar(p, s, pi, si, star, backtrack);
      StarTakesNothing(p, s, star, backtrack);
    }
  }

  /** After a mismatch the star must take at least one byte more. */
  lemma Mismatch(p: Bytes, s: Bytes, pi: nat, si: nat, star: nat, backtrack: nat)
    requires Tracking(p, s, pi, si, star, backtrack) && si < |s|
    requires pi == |p| || (p[pi] != STAR && p[pi] != s[si])
    ensures Wild(p[star..], s[backtrack..]) <==> Wild(p[star..], s[backtrack + 1..])
  {
    assert !Wild(p[pi..], s[si..]);
    LiteralAfterStar(p, s, pi, si, star, backtrack);
    assert p[star..][1..] == p[star + 1..];
    assert s[backtrack..][1..] == s[backtrack + 1..];
    StarStep(p[star..], s[backtrack..]);
  }

  /** At the end of the segment only stars may be left. */
  lemma AtTheEnd(p: Bytes, s: Bytes, pi: nat, star: nat, backtrack: nat)
    requires Tracking(p, s, pi, |s|, star, backtrack)
    ensures Wild(p[star..], s[backtrack..]) <==> AllStars(p[pi..])
  {
    OnlyStarsMatchNothing(p[pi..]);
    assert s[|s|..] == [];
    if Wild(p[star..], s[backtrack..]) {
      var k := StarAt(p, s, star, backtrack);
      LiteralLater(p, s, pi, |s|, star, backtrack, k);
    }
    if AllStars(p[pi..]) {
      LiteralAfterStar(p, s, pi, |s|, star, backtrack);
      StarTakesNothing(p, s, star, backtrack);
    }
  }

  /** What the main loop knows of the answer. */
  predicate Undecided(p: Bytes, s: Bytes, pi: nat, si: nat, star: Option<nat>, backtrack: nat) {
    && pi <= |p| && si <= |s| && backtrack <= si
    && match star
       case None => backtrack == 0 && (Wild(p, s) <==> Wild(p[pi..], s[si..]))
       case Some(at) => Tracking(p, s, pi, si, at, backtrack) && (Wild(p, s) <==> Wild(p[at..], s[backtrack..]))
  }

  lemma SameByteStep(p: Bytes, s: Bytes, pi: nat, si: nat, star: Option<nat>, backtrack: nat)
    requires Undecided(p, s, pi, si, star, backtrack) && pi < |p| && si < |s| && p[pi] == s[si] != STAR
    ensures Undecided(p, s, pi + 1, si + 1, star, backtrack)
  {
    if star.Some? {
      assert p[star.value + 1..pi + 1] == p[star.value + 1..pi] + [p[pi]];
      assert s[backtrack..si + 1] == s[backtrack..si] + [s[si]];
    } else {
      assert p[pi..][1..] == p[pi + 1..] && s[si..][1..] == s[si + 1..];
    }
  }

  lemma StarSeen(p: Bytes, s: Bytes, pi: nat, si: nat, star: Option<nat>, backtrack: nat)
    requires Undecided(p, s, pi, si, star, backtrack) && pi < |p| && p[pi] == STAR
    ensures Undecided(p, s, pi + 1, si, Some(pi), si)
  {
    assert p[pi + 1..pi + 1] == s[si..si];
    if star.Some? {
      NewStar(p, s, pi, si, star.value, backtrack);
    }
  }

  lemma Backtracked(p: Bytes, s: Bytes, pi: nat, si: nat, star: nat, backtrack: nat)
    requires Undecided(p, s, pi, si, Some(star), backtrack) && si < |s|
    requires pi == |p| || (p[pi] != STAR && p[pi] != s[si])
    ensures Undecided(p, s, star + 1, backtrack + 1, Some(star), backtrack + 1)
  {
    Mismatch(p, s, pi, si, star, backtrack);
    assert p[star + 1..star + 1] == s[backtrack + 1..backtrack + 1];
  }

  lemma NothingLeft(p: Bytes, s: Bytes, pi: nat, star: Option<nat>, backtrack: nat)
    requires Undecided(p, s, pi, |s|, star, backtrack)
    ensures Wild(p, s) <==> AllStars(p[pi..])
  {
    if star.Some? {
      AtTheEnd(p, s, pi, star.value, backtrack);
    } else {
      OnlyStarsMatchNothing(p[pi..]);
      assert s[|s|..] == [];
    }
  }

  /** With nothing to go back to, a mismatch is final. */
  lemma NoWayBack(p: Bytes, s: Bytes, pi: nat, si: nat)
    requires Undecided(p, s, pi, si, None, 0) && si < |s|
    requires pi == |p| || (p[pi] != STAR && p[pi] != s[si])
    ensures !Wild(p, s)
  {}

  /** Each step is paid for by the pattern position, or by one byte more for the star. */
  predicate Within(steps: nat, backtrack: nat, n: nat, pi: nat) {
    steps <= backtrack * (n + 1) + pi
  }

  lemma StartsWithin(n: nat)
    ensures Within(0, 0, n, 0)
  {}

  lemma StepForward(steps: nat, backtrack: nat, later: nat, n: nat, pi: nat)
    requires Within(steps, backtrack, n, pi) && backtrack <= later
    ensures Within(steps + 1, later, n, pi + 1)
  {
    assert backtrack * (n + 1) <= later * (n + 1);
  }

  lemma StepBack(steps: nat, backtrack: nat, n: nat, pi: nat, at: nat)
    requires Within(steps, backtrack, n, pi) && pi <= n
    ensures Within(steps + 1, backtrack + 1, n, at)
  {
    assert (backtrack + 1) * (n + 1) == backtrack * (n + 1) + n + 1;
  }

  lemma StepsInAll(steps: nat, backtrack: nat, n: nat, pi: nat, m: nat)
    requires Within(steps, backtrack, n, pi) && pi <= n && backtrack <= m
    ensures steps <= (n + 1) * (m + 2)
  {
    assert backtrack * (n + 1) <= m * (n + 1);
    assert (n + 1) * (m + 2) == m * (n + 1) + 2 * (n + 1);
  }

  /**
  Match one segment, going back only to the last star. The answer is exact, and the main
  loop takes at most as many steps as the product of the two lengths (plus one and two).
  */
  method MatchOne(pattern: Bytes, segment: Bytes) returns (matched: bool, ghost steps: nat)
    ensures matched <==> Wild(pattern, segment)
    ensures steps <= (|pattern| + 1) * (|segment| + 2)
  {
    hide Denotes, Wild, Within;
    var p, s := pattern, segment;
    var pi: nat, si: nat := 0, 0;
    var star: Option<nat>, backtrack: nat := None, 0;
    steps := 0;
    assert p[0..] == p && s[0..] == s;
    StartsWithin(|p|);
    while si < |s|
      invariant Undecided(p, s, pi, si, star, backtrack)
      invariant Within(steps, backtrack, |p|, pi)
      decreases |s| - backtrack, |p| - pi
    {
      if pi < |p| && p[pi] == STAR {
        StarSeen(p, s, pi, si, star, backtrack);
        StepForward(steps, backtrack, si, |p|, pi);
        star := Some(pi);
        backtrack := si;
        pi := pi + 1;
      } else if pi < |p| && p[pi] == s[si] {
        SameByteStep(p, s, pi, si, star, backtrack);
        StepForward(steps, backtrack, backtrack, |p|, pi);
        pi := pi + 1;
        si := si + 1;
      } else if star.Some? {
        Backtracked(p, s, pi, si, star.value, backtrack);
        StepBack(steps, backtrack, |p|, pi, star.value + 1);
        pi := star.value + 1;
        backtrack := backtrack + 1;
        si := backtrack;
      } else {
        NoWayBack(p, s, pi, si);
        StepsInAll(steps, backtrack, |p|, pi, |s|);
        return false, steps;
      }
      steps := steps + 1;
    }
    StepsInAll(steps, backtrack, |p|, pi, |s|);
    NothingLeft(p, s, pi, star, backtrack);
    ghost var left := pi;
    while pi < |p| && p[pi] == STAR
      invariant left <= pi <= |p|
      invariant forall i :: left <= i < pi ==> p[i] == STAR
    {
      pi := pi + 1;
    }
    assert pi < |p| ==> p[left..][pi - left] == p[pi];
    return pi == |p|, steps;
  }

  // ---- across segments ----

  predicate IsDoubleStar(item: Bytes) { item == DOUBLE_STAR }

  /** `**` takes any number of whole segments; any other pattern segment takes one that it matches. */
  predicate InSegments(pattern: seq<Bytes>, segments: seq<Bytes>) {
    Denotes(IsDoubleStar, Wild, pattern, segments)
  }

  method MatchSegments(pattern: seq<Bytes>, segments: seq<Bytes>) returns (matched: bool)
    ensures matched <==> InSegments(pattern, segments)
    decreases |pattern|
  {
    hide Wild;
    if pattern == [] {
      return segments == [];
    }
    if pattern[0] == DOUBLE_STAR {
      for skip := 0 to |segments| + 1
        invariant forall k :: 0 <= k < skip ==> !Denotes(IsDoubleStar, Wild, pattern[1..], segments[k..])
      {
        matched := MatchSegments(pattern[1..], segments[skip..]);
        if matched {
          return true;
        }
      }
      return false;
    }
    if segments == [] {
      return false;
    }
    ghost var steps;
    matched, steps := MatchOne(pattern[0], segments[0]);
    if matched {
      matched := MatchSegments(pattern[1..], segments[1..]);
    }
  }

  // ---- paths ----

  /** The segments between slashes; the empty path is one empty segment. */
  function Split(path: Bytes): (segments: seq<Bytes>)
    ensures segments != []
  {
    if path == [] then [[]]
    else if path[0] == SLASH then [[]] + Split(path[1..])
    else
      var rest := Split(path[1..]);
      [[path[0]] + rest[0]] + rest[1..]
  }

  function Join(segments: seq<Bytes>): Bytes
    requires segments != []
  {
    if |segments| == 1 then segments[0] else segments[0] + [SLASH] + Join(segments[1..])
  }

  predicate SlashFree(segments: seq<Bytes>) {
    forall i :: 0 <= i < |segments| ==> SLASH !in segments[i]
  }

  lemma {:induction false} SplitInverts(path: Bytes)
    ensures SlashFree(Split(path)) && Join(Split(path)) == path
  {
    if path != [] {
      var rest := Split(path[1..]);
      SplitInverts(path[1..]);
      assert Join(rest) == path[1..];
      var segments := Split(path);
      assert [path[0]] + path[1..] == path;
      if path[0] == SLASH {
        assert segments[1..] == rest;
      } else if |rest| > 1 {
        assert segments[1..] == rest[1..];
        assert segments[0] + [SLASH] + Join(rest[1..]) == [path[0]] + (rest[0] + [SLASH] + Join(rest[1..]));
      }
    }
  }

  lemma {:induction false} JoinInverts(segments: seq<Bytes>)
    requires segments != [] && SlashFree(segments)
    ensures Split(Join(segments)) == segments
    decreases |segments|, |segments[0]|
  {
    var path := Join(segments);
    if segments[0] != [] {
      var shorter := [segments[0][1..]] + segments[1..];
      assert shorter[1..] == segments[1..];
      assert segments[0][0] in segments[0];
      assert path[0] != SLASH;
      assert path[1..] == Join(shorter);
      forall i | 0 <= i < |shorter|
        ensures SLASH !in shorter[i]
      {
        assert SLASH !in segments[i];
      }
      JoinInverts(shorter);
      assert [segments[0][0]] + segments[0][1..] == segments[0];
    } else if |segments| > 1 {
      assert path == [SLASH] + Join(segments[1..]);
      JoinInverts(segments[1..]);
      assert [segments[0]] + segments[1..] == segments;
    } else {
      assert segments == [[]];
    }
  }

  /** The path is in the pattern's language. */
  predicate GlobMatch(pattern: Bytes, path: Bytes) {
    InSegments(Split(pattern), Split(path))
  }

  method MatchGlob(pattern: Bytes, path: Bytes) returns (matched: bool)
    ensures matched <==> GlobMatch(pattern, path)
  {
    matched := MatchSegments(Split(pattern), Split(path));
  }

  /** A path matches exactly if its segments split into a piece for each segment of the pattern. */
  lemma GlobMatchIffSplit(pattern: Bytes, path: Bytes)
    ensures GlobMatch(pattern, path) <==>
      exists pieces: seq<seq<Bytes>> ::
        IsSplit(IsDoubleStar, Wild, Split(pattern), pieces) && Concat(pieces) == Split(path)
  {
    DenotesIffSplit(IsDoubleStar, Wild, Split(pattern), Split(path));
  }

  predicate NoDoubleStar(pattern: seq<Bytes>) {
    forall i :: 0 <= i < |pattern| ==> pattern[i] != DOUBLE_STAR
  }

  /** Without `**` segments match one to one: a single star never crosses a slash. */
  lemma {:induction false} SegmentsMatchOneToOne(pattern: seq<Bytes>, segments: seq<Bytes>)
    requires NoDoubleStar(pattern)
    ensures InSegments(pattern, segments) <==>
      |pattern| == |segments| && forall i :: 0 <= i < |pattern| ==> Wild(pattern[i], segments[i])
  {
    hide Wild;
    if pattern != [] && segments != [] {
      SegmentsMatchOneToOne(pattern[1..], segments[1..]);
      assert forall i :: 0 <= i < |pattern| - 1 ==> pattern[1..][i] == pattern[i + 1];
      assert |pattern| == |segments| ==> forall i :: 0 <= i < |pattern| - 1 ==> segments[1..][i] == segments[i + 1];
      if |pattern| == |segments| && forall i :: 0 <= i < |pattern| - 1 ==> Wild(pattern[1..][i], segments[1..][i]) {
        forall i | 1 <= i < |pattern|
          ensures Wild(pattern[i], segments[i])
        {
          assert Wild(pattern[1..][i - 1], segments[1..][i - 1]);
        }
      }
    }
  }

  function Slashes(path: Bytes): nat {
    if path == [] then 0 else Slashes(path[1..]) + if path[0] == SLASH then 1 else 0
  }

  lemma {:induction false} SegmentsCountSlashes(path: Bytes)
    ensures |Split(path)| == Slashes(path) + 1
  {
    if path != [] {
      SegmentsCountSlashes(path[1..]);
    }
  }

  /** So a pattern without `**` segments matches only paths with as many slashes. */
  lemma StarNeverCrossesSlash(pattern: Bytes, path: Bytes)
    requires NoDoubleStar(Split(pattern)) && GlobMatch(pattern, path)
    ensures Slashes(pattern) == Slashes(path)
  {
    hide Wild;
    SegmentsMatchOneToOne(Split(pattern), Split(path));
    SegmentsCountSlashes(pattern);
    SegmentsCountSlashes(path);
  }
}
