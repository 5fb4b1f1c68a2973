/**
 * Slash-separated paths as the docs commands build them with Node's `path`
 * module, restricted to the shapes those commands produce: segments are
 * non-empty, contain no `/` and are neither `.` nor `..`, so `path.join`
 * never has anything to normalise.
 */
module Paths {
  import opened Wrappers

  /** A single path segment: an outline key or a document file name. */
  predicate IsSegment(s: string) {
    s != "" && s != "." && s != ".." && '/' !in s
  }

  /** `path.join(a, b)` for a segment `b`; joining onto the empty path yields `b`. */
  function Join(a: string, b: string): string {
    if a == "" then b else a + "/" + b
  }

  /** `path.join(root, s0, s1, ...)`, folding the segments in from the left. */
  function JoinAll(root: string, segments: seq<string>): string
    decreases |segments|
  {
    if segments == [] then root else JoinAll(Join(root, segments[0]), segments[1..])
  }

  /** Joining one more segment onto a joined path is joining the longer list. */
  lemma {:induction false} JoinAllSnoc(root: string, segments: seq<string>, s: string)
    ensures JoinAll(root, segments + [s]) == Join(JoinAll(root, segments), s)
    decreases |segments|
  {
    if segments == [] {
      assert JoinAll(Join(root, s), []) == Join(root, s);
    } else {
      assert (segments + [s])[1..] == segments[1..] + [s];
      JoinAllSnoc(Join(root, segments[0]), segments[1..], s);
    }
  }

  /** The index of the last `/` in `p`, if any. */
  function LastSlash(p: string): (r: Option<nat>)
    ensures r.None? ==> '/' !in p
    ensures r.Some? ==> r.value < |p| && p[r.value] == '/' && '/' !in p[r.value + 1..]
    decreases |p|
  {
    if p == [] then None
    else if p[|p| - 1] == '/' then Some(|p| - 1)
    else
      var r := LastSlash(p[..|p| - 1]);
      assert r.Some? ==> p[r.value + 1..] == p[..|p| - 1][r.value + 1..] + [p[|p| - 1]];
      r
  }

  /** `path.dirname(p)` for a path without a trailing slash. */
  function Dirname(p: string): (r: string)
    ensures r != ""
  {
    match LastSlash(p)
    case None => "."
    case Some(i) => if i == 0 then "/" else p[..i]
  }

  /** The directory of a file joined onto `dir` is `dir`, or `.` for a bare file name. */
  lemma DirnameOfJoin(dir: string, name: string)
    requires IsSegment(name)
    ensures Dirname(Join(dir, name)) == if dir == "" then "." else dir
  {
    if dir != "" {
      var p := dir + "/" + name;
      assert p[|dir| + 1..] == name;
      var r := LastSlash(p);
      assert p[|dir|] == '/';
      assert r.Some?;
      assert forall j :: |dir| < j < |p| ==> p[j] == name[j - |dir| - 1];
      assert r.value <= |dir|;
      assert r.value == |dir|;
      assert p[..|dir|] == dir;
    }
  }

  /**
   * The directories `mkdirSync(d, { recursive: true })` makes exist: `d`
   * itself and every prefix of `d` that ends just before a `/`.
   */
  function Ancestry(d: string): set<string> {
    set i | 0 < i <= |d| && (i == |d| || d[i] == '/') :: d[..i]
  }

  /** A non-empty directory belongs to its own ancestry. */
  lemma SelfInAncestry(d: string)
    requires d != ""
    ensures d in Ancestry(d)
  {
    assert d[..|d|] == d;
  }

  /** Every directory in the ancestry of `d` is at most as long as `d`. */
  lemma AncestryShorter(d: string, a: string)
    requires a in Ancestry(d)
    ensures |a| <= |d| && a == d[..|a|]
  {
  }
}
