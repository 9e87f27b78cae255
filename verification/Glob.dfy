/** Glob patterns over path components. A path is the list of its components below the
    root; matching one component against another is filepath.Match. */
module Glob {

  type Path = seq<string>

  /** filepath.Match on one component; a malformed pattern matches nothing. */
  type Matcher = (string, string) -> bool

  const ANY := "**"

  /** The recursion of matchGlob. */
  predicate Match(fits: Matcher, pattern: Path, path: Path)
    decreases |pattern|
  {
    if pattern == [] then path == []
    else if pattern[0] == ANY then exists k | 0 <= k <= |path| :: Match(fits, pattern[1..], path[k..])
    else path != [] && fits(pattern[0], path[0]) && Match(fits, pattern[1..], path[1..])
  }

  /** What `**` does: it tries every rest of the path. */
  method MatchAnyRest(fits: Matcher, pattern: Path, path: Path) returns (matched: bool)
    ensures matched <==> exists k | 0 <= k <= |path| :: Match(fits, pattern, path[k..])
    decreases |pattern|, 1
  {
    for k := 0 to |path| + 1
      invariant forall j | 0 <= j < k :: !Match(fits, pattern, path[j..])
    {
      matched := MatchGlob(fits, pattern, path[k..]);
      if matched {
        return;
      }
    }
    matched := false;
  }

  /** matchGlob: plain components are consumed in a loop. */
  method MatchGlob(fits: Matcher, pattern: Path, path: Path) returns (matched: bool)
    ensures matched == Match(fits, pattern, path)
    decreases |pattern|, 0
  {
    var i := 0;
    while i < |pattern|
      invariant i <= |pattern| && i <= |path|
      invariant Match(fits, pattern, path) == Match(fits, pattern[i..], path[i..])
    {
      assert pattern[i..][1..] == pattern[i + 1..];
      if pattern[i] == ANY {
        matched := MatchAnyRest(fits, pattern[i + 1..], path[i..]);
        return;
      }
      if i == |path| || !fits(pattern[i], path[i]) {
        return false;
      }
      assert path[i..][1..] == path[i + 1..];
      i := i + 1;
    }
    matched := i == |path|;
  }

  // ---------------------------------------------------------- what it means

  function Flat(parts: seq<Path>): Path {
    if parts == [] then [] else parts[0] + Flat(parts[1..])
  }

  /** A plain component stands for one path component, `**` for any number of them. */
  predicate Stands(fits: Matcher, component: string, part: Path) {
    component == ANY || (|part| == 1 && fits(component, part[0]))
  }

  /** The path falls into consecutive parts, one for each component of the pattern. */
  ghost predicate Segments(fits: Matcher, pattern: Path, path: Path, parts: seq<Path>) {
    |parts| == |pattern| && Flat(parts) == path && forall i | 0 <= i < |parts| :: Stands(fits, pattern[i], parts[i])
  }

  ghost predicate Segmentable(fits: Matcher, pattern: Path, path: Path) {
    exists parts :: Segments(fits, pattern, path, parts)
  }

  lemma {:induction false} MatchSegments(fits: Matcher, pattern: Path, path: Path) returns (parts: seq<Path>)
    requires Match(fits, pattern, path)
    ensures Segments(fits, pattern, path, parts)
    decreases |pattern|
  {
    if pattern == [] {
      parts := [];
    } else {
      var k := 1;
      if pattern[0] == ANY {
        k :| 0 <= k <= |path| && Match(fits, pattern[1..], path[k..]);
      }
      var rest := MatchSegments(fits, pattern[1..], path[k..]);
      parts := [path[..k]] + rest;
      assert parts[1..] == rest && path[..k] + path[k..] == path;
    }
  }

  lemma {:induction false} SegmentsMatch(fits: Matcher, pattern: Path, path: Path, parts: seq<Path>)
    requires Segments(fits, pattern, path, parts)
    ensures Match(fits, pattern, path)
    decreases |pattern|
  {
    if pattern != [] {
      var k := |parts[0]|;
      assert path[k..] == Flat(parts[1..]);
      assert Segments(fits, pattern[1..], path[k..], parts[1..]);
      SegmentsMatch(fits, pattern[1..], path[k..], parts[1..]);
      assert Stands(fits, pattern[0], parts[0]);
    }
  }

  /** Matching is the existence of a segmentation of the path. */
  lemma MatchIffSegmentable(fits: Matcher, pattern: Path, path: Path)
    ensures Match(fits, pattern, path) <==> Segmentable(fits, pattern, path)
  {
    if Match(fits, pattern, path) {
      var parts := MatchSegments(fits, pattern, path);
    }
    if parts :| Segments(fits, pattern, path, parts) {
      SegmentsMatch(fits, pattern, path, parts);
    }
  }

  // ----------------------------------------------------------- ancestors

  /** A directory above a matched file is matched by the pattern, or by a part of the
      pattern that ends before its last component. */
  lemma {:induction false} AncestorMatches(fits: Matcher, pattern: Path, path: Path, k: nat) returns (j: nat)
    requires Match(fits, pattern, path) && k <= |path|
    ensures j <= |pattern| && Match(fits, pattern[..j], path[..k])
    ensures 0 < k ==> 0 < j
    decreases |pattern|
  {
    if k == 0 {
      j := 0;
    } else if pattern[0] == ANY {
      var i :| 0 <= i <= |path| && Match(fits, pattern[1..], path[i..]);
      if k <= i {
        j := 1;
        assert pattern[..1][1..] == [] && path[..k][k..] == [];
        assert Match(fits, pattern[..1][1..], path[..k][k..]);
      } else {
        var rest := AncestorMatches(fits, pattern[1..], path[i..], k - i);
        j := rest + 1;
        assert pattern[..j][1..] == pattern[1..][..rest] && path[..k][i..] == path[i..][..k - i];
      }
    } else {
      var rest := AncestorMatches(fits, pattern[1..], path[1..], k - 1);
      j := rest + 1;
      assert pattern[..j][1..] == pattern[1..][..rest] && path[..k][1..] == path[1..][..k - 1];
    }
  }

  // --------------------------------------------------------------- the rule

  datatype Change = Create | Write | Remove | Rename | Chmod

  /** Whether a change of a directory can replace what is below it. */
  predicate Structural(types: set<Change>) {
    Create in types || Remove in types || Rename in types
  }

  /** The glob or, for a structural change, one of its parents below the root. */
  predicate Covers(fits: Matcher, glob: Path, path: Path, types: set<Change>) {
    || Match(fits, glob, path)
    || (Structural(types) && exists j | 0 < j < |glob| :: Match(fits, glob[..j], path))
  }

  /** A rule restarts: the path is covered, and some change of it is one of the rule's. */
  predicate Fires(fits: Matcher, glob: Path, events: set<Change>, path: Path, types: set<Change>) {
    Covers(fits, glob, path, types) && events * types != {}
  }

  /** RestartRule.matches. */
  method Matches(fits: Matcher, glob: Path, events: set<Change>, path: Path, types: set<Change>) returns (restart: bool)
    ensures restart <==> Fires(fits, glob, events, path, types)
  {
    var matched := MatchGlob(fits, glob, path);
    if Structural(types) {
      var parent := |glob| - 1;
      while !matched && 0 < parent
        invariant -1 <= parent < |glob|
        invariant matched ==> Covers(fits, glob, path, types)
        invariant !matched ==> !Match(fits, glob, path) && forall j | parent < j < |glob| && 0 < j ::
            !Match(fits, glob[..j], path)
        decreases parent
      {
        matched := MatchGlob(fits, glob[..parent], path);
        parent := parent - 1;
      }
    }
    if !matched {
      return false;
    }
    var todo := events;
    while todo != {}
      invariant todo <= events && events * types == todo * types
      decreases |todo|
    {
      var name :| name in todo;
      if name in types {
        assert name in events * types;
        return true;
      }
      todo := todo - {name};
    }
    restart := false;
  }

  /** A rule that watches a file restarts when any directory above it but the root is
      created, removed or renamed, exactly if one of these changes is the rule's. */
  lemma DirectoriesNoticed(fits: Matcher, glob: Path, events: set<Change>, file: Path, k: nat, types: set<Change>)
    requires Match(fits, glob, file) && 0 < k < |file| && Structural(types)
    ensures Fires(fits, glob, events, file[..k], types) <==> events * types != {}
  {
    var j := AncestorMatches(fits, glob, file, k);
    if j == |glob| { assert glob[..j] == glob; }
  }

  /** Without a structural change only a path that matches the glob itself counts. */
  lemma OtherChangesExact(fits: Matcher, glob: Path, events: set<Change>, path: Path, types: set<Change>)
    requires !Structural(types)
    ensures Fires(fits, glob, events, path, types) <==> Segmentable(fits, glob, path) && events * types != {}
  {
    MatchIffSegmentable(fits, glob, path);
  }
}
