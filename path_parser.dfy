/**
 * The sub-path extraction shared by the three group routers:
 * `pathname.match(/\/<group>\/?(.*)$/)`, then `match ? match[1] : ''`.
 *
 * A non-global match tries start positions from left to right.  At a
 * position where the mount prefix occurs, the optional slash and `.*`
 * succeed exactly when no line terminator follows the prefix (`.` refuses
 * them and `$` needs the end of the input), and then the capture is
 * everything after the prefix with one leading slash dropped.
 */
module PathParser {
  import opened Options
  import opened Strings

  /** The regular expression matches with its prefix starting at index `i`. */
  predicate MatchesAt(prefix: string, path: string, i: int) {
    OccursAt(path, prefix, i) && NoLineTerminator(path[i + |prefix|..])
  }

  /** The greedy `\/?`: one leading slash, if any, is not captured. */
  function DropOneSlash(s: string): string {
    if |s| > 0 && s[0] == '/' then s[1..] else s
  }

  /** The leftmost matching start position at or after `from`. */
  function FirstMatch(prefix: string, path: string, from: nat): (r: Option<nat>)
    requires from <= |path|
    ensures r.Some? ==> from <= r.value <= |path| && MatchesAt(prefix, path, r.value)
    ensures r.Some? ==> forall j :: from <= j < r.value ==> !MatchesAt(prefix, path, j)
    ensures r.None? ==> forall j :: from <= j <= |path| ==> !MatchesAt(prefix, path, j)
    decreases |path| - from
  {
    if MatchesAt(prefix, path, from) then Some(from)
    else if from == |path| then None
    else FirstMatch(prefix, path, from + 1)
  }

  /** `getSubPath()` for the mount prefix `prefix`. */
  function SubPath(prefix: string, path: string): (r: string)
    ensures (forall i :: 0 <= i <= |path| ==> !MatchesAt(prefix, path, i)) ==> r == ""
    ensures forall i :: (0 <= i <= |path| && MatchesAt(prefix, path, i) &&
      (forall j :: 0 <= j < i ==> !MatchesAt(prefix, path, j))) ==>
      r == DropOneSlash(path[i + |prefix|..])
  {
    match FirstMatch(prefix, path, 0)
    case None => ""
    case Some(i) => DropOneSlash(path[i + |prefix|..])
  }

  /** Round trip: mounting a sub-path under the prefix and parsing it back gives it unchanged. */
  lemma SubPathRoundTrip(prefix: string, s: string)
    requires NoLineTerminator(s)
    ensures SubPath(prefix, prefix + "/" + s) == s
  {
    var path := prefix + "/" + s;
    assert path[..|prefix|] == prefix;
    assert path[|prefix|..] == "/" + s;
    assert MatchesAt(prefix, path, 0);
  }

  /** The mount point itself, with or without a trailing slash, has the empty sub-path. */
  lemma SubPathOfMountPoint(prefix: string)
    ensures SubPath(prefix, prefix) == ""
    ensures SubPath(prefix, prefix + "/") == ""
  {
    assert prefix[..|prefix|] == prefix;
    assert MatchesAt(prefix, prefix, 0);
    var p := prefix + "/";
    assert p[..|prefix|] == prefix && p[|prefix|..] == "/";
    assert MatchesAt(prefix, p, 0);
  }

  /** A pathname that does not contain the prefix at all has the empty sub-path. */
  lemma SubPathAbsent(prefix: string, path: string)
    requires !Contains(path, prefix)
    ensures SubPath(prefix, path) == ""
  {
  }

  /** The sub-path is empty exactly when nothing matched or only an optional slash followed the match. */
  lemma SubPathEmptyIff(prefix: string, path: string)
    ensures SubPath(prefix, path) == "" <==>
      FirstMatch(prefix, path, 0).None? ||
      path[FirstMatch(prefix, path, 0).value + |prefix|..] in {"", "/"}
  {
    match FirstMatch(prefix, path, 0)
    case None =>
    case Some(i) =>
      var rest := path[i + |prefix|..];
      if |rest| > 0 && rest[0] == '/' && rest[1..] == "" {
        assert rest == "/";
      }
  }

  /** The match is not segment-bounded: text glued to the prefix is the sub-path. */
  lemma NotSegmentBounded()
    ensures SubPath("/reports", "/reportsfoo") == "foo"
  {
    assert MatchesAt("/reports", "/reportsfoo", 0);
  }

  /** The leftmost occurrence wins; later occurrences stay inside the sub-path. */
  lemma LeftmostOccurrenceWins()
    ensures SubPath("/reports", "/x/reports/a/reports/b") == "a/reports/b"
  {
    var path := "/x/reports/a/reports/b";
    assert path[0..8][1] == 'x';
    assert path[1..9][0] == 'x';
    assert path[2..10] == "/reports";
    assert path[10..] == "/a/reports/b";
    assert MatchesAt("/reports", path, 2);
  }

  /** An occurrence followed by a line terminator cannot match; the next one is used. */
  lemma LineTerminatorSkipsOccurrence()
    ensures SubPath("/audit", "/audit\n/audit/7") == "7"
  {
    var path := "/audit\n/audit/7";
    assert !NoLineTerminator(path[6..]) by { assert path[6..][0] == '\n'; }
    forall j | 0 <= j < 7 ensures !MatchesAt("/audit", path, j) {
      if 1 <= j < 7 {
        assert path[j..j + 6][0] == path[j] != '/';
      }
    }
    assert path[7..13] == "/audit" && path[13..] == "/7";
    assert MatchesAt("/audit", path, 7);
  }

  /** Only one slash is dropped, so a sub-path can itself start with a slash. */
  lemma DoubleSlashKeepsOne()
    ensures SubPath("/reports", "/reports//x") == "/x"
  {
    assert MatchesAt("/reports", "/reports//x", 0);
  }
}
