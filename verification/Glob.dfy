/** Watch-path patterns (MatchPath and matchParts of internal/planner/planner.go). `seg` stands for
    filepath.Match on one segment; None is its error. */
module Glob {
  import opened Base

  type SegmentMatcher = (string, string) -> Option<bool>

  function Concat(parts: seq<seq<string>>): seq<string> {
    if parts == [] then [] else parts[0] + Concat(parts[1..])
  }

  /** One way to read a path against a pattern: every pattern segment takes a run of path segments,
      "**" any run at all and every other one a single segment that it matches. */
  ghost predicate Reading(pattern: seq<string>, path: seq<string>, parts: seq<seq<string>>, seg: SegmentMatcher) {
    && |parts| == |pattern|
    && Concat(parts) == path
    && forall i :: 0 <= i < |pattern| ==> Takes(pattern[i], parts[i], seg)
  }

  predicate Takes(p: string, run: seq<string>, seg: SegmentMatcher) {
    p == "**" || (|run| == 1 && seg(p, run[0]) == Some(true))
  }

  ghost predicate Matches(pattern: seq<string>, path: seq<string>, seg: SegmentMatcher) {
    exists parts :: Reading(pattern, path, parts, seg)
  }

  lemma EmptyPattern(path: seq<string>, seg: SegmentMatcher)
    ensures Matches([], path, seg) <==> path == []
  {
    if path == [] {
      assert Reading([], path, [], seg);
    }
  }

  lemma {:induction false} FirstTakes(pattern: seq<string>, path: seq<string>, k: nat, seg: SegmentMatcher)
    requires pattern != [] && k <= |path| && Takes(pattern[0], path[..k], seg) && Matches(pattern[1..], path[k..], seg)
    ensures Matches(pattern, path, seg)
  {
    var rest :| Reading(pattern[1..], path[k..], rest, seg);
    var parts := [path[..k]] + rest;
    assert parts[1..] == rest;
    assert path == path[..k] + path[k..];
    forall i | 0 <= i < |pattern|
      ensures Takes(pattern[i], parts[i], seg)
    {
      if i > 0 {
        assert Takes(pattern[1..][i - 1], rest[i - 1], seg);
      }
    }
    assert Reading(pattern, path, parts, seg);
  }

  lemma {:induction false} FirstTook(pattern: seq<string>, path: seq<string>, seg: SegmentMatcher) returns (k: nat)
    requires pattern != [] && Matches(pattern, path, seg)
    ensures k <= |path| && Takes(pattern[0], path[..k], seg) && Matches(pattern[1..], path[k..], seg)
  {
    var parts :| Reading(pattern, path, parts, seg);
    k := |parts[0]|;
    assert path == parts[0] + Concat(parts[1..]);
    assert path[..k] == parts[0] && path[k..] == Concat(parts[1..]);
    assert Takes(pattern[0], parts[0], seg);
    forall i | 0 <= i < |pattern[1..]|
      ensures Takes(pattern[1..][i], parts[1..][i], seg)
    {
      assert Takes(pattern[i + 1], parts[i + 1], seg);
    }
    assert Reading(pattern[1..], path[k..], parts[1..], seg);
  }

  /** "**" takes nothing, or one more segment. */
  lemma StarStep(pattern: seq<string>, path: seq<string>, seg: SegmentMatcher)
    requires pattern != [] && pattern[0] == "**"
    ensures Matches(pattern, path, seg) <==>
            Matches(pattern[1..], path, seg) || (path != [] && Matches(pattern, path[1..], seg))
  {
    if Matches(pattern, path, seg) {
      var k := FirstTook(pattern, path, seg);
      if k == 0 {
        assert path[0..] == path;
      } else {
        assert path[1..][k - 1..] == path[k..];
        FirstTakes(pattern, path[1..], k - 1, seg);
      }
    }
    if Matches(pattern[1..], path, seg) {
      assert path[0..] == path;
      FirstTakes(pattern, path, 0, seg);
    }
    if path != [] && Matches(pattern, path[1..], seg) {
      var k := FirstTook(pattern, path[1..], seg);
      assert path[1..][k..] == path[k + 1..];
      FirstTakes(pattern, path, k + 1, seg);
    }
  }

  lemma SegmentStep(pattern: seq<string>, path: seq<string>, seg: SegmentMatcher)
    requires pattern != [] && pattern[0] != "**"
    ensures Matches(pattern, path, seg) <==>
            path != [] && seg(pattern[0], path[0]) == Some(true) && Matches(pattern[1..], path[1..], seg)
  {
    if Matches(pattern, path, seg) {
      var k := FirstTook(pattern, path, seg);
      assert path[..k][0] == path[0];
    }
    if path != [] && seg(pattern[0], path[0]) == Some(true) && Matches(pattern[1..], path[1..], seg) {
      assert path[..1] == [path[0]];
      FirstTakes(pattern, path, 1, seg);
    }
  }

  /** matchParts is sound and complete: it says yes exactly when there is a reading. */
  method MatchParts(patternParts: seq<string>, fileParts: seq<string>, seg: SegmentMatcher) returns (matched: bool)
    ensures matched <==> Matches(patternParts, fileParts, seg)
    decreases |patternParts|
  {
    var pattern, path := patternParts, fileParts;
    while true
      invariant |pattern| <= |patternParts|
      invariant Matches(pattern, path, seg) <==> Matches(patternParts, fileParts, seg)
      decreases |pattern| + |path|
    {
      if |pattern| == 0 {
        EmptyPattern(path, seg);
        return |path| == 0;
      }
      if pattern[0] == "**" {
        StarStep(pattern, path, seg);
        var skip := MatchParts(pattern[1..], path, seg);
        if skip {
          return true;
        }
        if |path| == 0 {
          return false;
        }
        path := path[1..];
      } else {
        SegmentStep(pattern, path, seg);
        if |path| == 0 {
          return false;
        }
        var ok := seg(pattern[0], path[0]);
        if ok.None? || !ok.value {
          return false;
        }
        pattern, path := pattern[1..], path[1..];
      }
    }
  }

  ghost predicate PathMatches(pattern: string, filePath: string, seg: SegmentMatcher) {
    Matches(Split(pattern, '/'), Split(filePath, '/'), seg)
  }

  method MatchPath(pattern: string, filePath: string, seg: SegmentMatcher) returns (matched: bool)
    ensures matched <==> PathMatches(pattern, filePath, seg)
  {
    matched := MatchParts(Split(pattern, '/'), Split(filePath, '/'), seg);
  }

  // ---- Directories ----

  /** Some leading segments of the path, perhaps all of it, match the pattern. */
  ghost predicate LeadMatches(pattern: seq<string>, path: seq<string>, seg: SegmentMatcher) {
    exists k :: 0 <= k <= |path| && Matches(pattern, path[..k], seg)
  }

  /** A pattern that ends in "**" matches exactly the paths that begin with what the rest matches. */
  lemma {:induction false} TrailingStar(dir: seq<string>, path: seq<string>, seg: SegmentMatcher)
    ensures Matches(dir + ["**"], path, seg) <==> LeadMatches(dir, path, seg)
    decreases |dir|
  {
    var pattern := dir + ["**"];
    if dir == [] {
      EmptyPattern(path[..0], seg);
      assert Concat([path]) == path + Concat([]) == path;
      assert Reading(["**"], path, [path], seg);
      assert pattern == ["**"];
    } else {
      assert pattern[0] == dir[0] && pattern[1..] == dir[1..] + ["**"];
      if Matches(pattern, path, seg) {
        var j := FirstTook(pattern, path, seg);
        TrailingStar(dir[1..], path[j..], seg);
        var k :| 0 <= k <= |path[j..]| && Matches(dir[1..], path[j..][..k], seg);
        assert path[..j + k][j..] == path[j..][..k] && path[..j + k][..j] == path[..j];
        FirstTakes(dir, path[..j + k], j, seg);
      }
      if k :| 0 <= k <= |path| && Matches(dir, path[..k], seg) {
        var j := FirstTook(dir, path[..k], seg);
        assert path[..k][j..] == path[j..][..k - j] && path[..k][..j] == path[..j];
        TrailingStar(dir[1..], path[j..], seg);
        FirstTakes(pattern, path, j, seg);
      }
    }
  }

  /** A path matches itself if the segment matcher lets each segment match itself. */
  lemma {:induction false} MatchesItself(path: seq<string>, seg: SegmentMatcher)
    requires forall i :: 0 <= i < |path| ==> seg(path[i], path[i]) == Some(true)
    ensures Matches(path, path, seg)
  {
    if path == [] {
      EmptyPattern(path, seg);
    } else {
      MatchesItself(path[1..], seg);
      assert path[..1] == [path[0]];
      FirstTakes(path, path, 1, seg);
    }
  }

  /** Without "**" a pattern matches segment by segment. */
  lemma {:induction false} PlainMatches(pattern: seq<string>, path: seq<string>, seg: SegmentMatcher)
    requires "**" !in pattern
    ensures Matches(pattern, path, seg) <==>
      |path| == |pattern| && forall i :: 0 <= i < |pattern| ==> seg(pattern[i], path[i]) == Some(true)
    decreases |pattern|
  {
    if pattern == [] {
      EmptyPattern(path, seg);
    } else {
      SegmentStep(pattern, path, seg);
      if path != [] {
        PlainMatches(pattern[1..], path[1..], seg);
      }
    }
  }
}
