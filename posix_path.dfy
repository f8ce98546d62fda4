/**
 * The part of Python's `os.path` (POSIX flavour, `posixpath`) that the
 * downloader uses: `join` with one extra component, `dirname` and
 * `basename`, all on plain strings with `/` as the separator.
 */
module PosixPath {

  predicate EndsWithSlash(s: string) {
    |s| > 0 && s[|s| - 1] == '/'
  }

  predicate AllSlashes(s: string) {
    forall i :: 0 <= i < |s| ==> s[i] == '/'
  }

  /** What `dirname` can return: no trailing separator, unless it is the root (or empty). */
  predicate IsDirName(d: string) {
    !EndsWithSlash(d) || AllSlashes(d)
  }

  /** A single path component: non-empty and free of separators. */
  predicate IsComponent(name: string) {
    |name| > 0 && '/' !in name
  }

  /** `posixpath.join(a, b)`: an absolute `b` replaces `a`; otherwise one `/` separates them. */
  function Join(a: string, b: string): string {
    if |b| > 0 && b[0] == '/' then b
    else if a == [] || EndsWithSlash(a) then a + b
    else a + "/" + b
  }

  /** Length of the prefix of `p` up to and including its last separator (0 if it has none). */
  function HeadLength(p: string): (n: nat)
    ensures n <= |p|
    ensures n > 0 ==> p[n - 1] == '/'
    ensures forall i :: n <= i < |p| ==> p[i] != '/'
  {
    if p == [] then 0
    else if p[|p| - 1] == '/' then |p|
    else HeadLength(p[..|p| - 1])
  }

  /** Drops every trailing separator. */
  function StripTrailingSlashes(s: string): (r: string)
    ensures r <= s
    ensures !EndsWithSlash(r)
    ensures forall i :: |r| <= i < |s| ==> s[i] == '/'
  {
    if EndsWithSlash(s) then StripTrailingSlashes(s[..|s| - 1]) else s
  }

  /** `posixpath.dirname(p)`: the head before the last separator, trailing separators removed unless the head is all separators. */
  function DirName(p: string): string {
    var head := p[..HeadLength(p)];
    if head != [] && !AllSlashes(head) then StripTrailingSlashes(head) else head
  }

  /** `posixpath.basename(p)`: everything after the last separator. */
  function BaseName(p: string): string {
    p[HeadLength(p)..]
  }

  /** The last separator of `p` is at index `k - 1` exactly when `HeadLength(p) == k`. */
  lemma {:induction false} HeadLengthAt(p: string, k: nat)
    requires 0 < k <= |p| && p[k - 1] == '/'
    requires forall i :: k <= i < |p| ==> p[i] != '/'
    ensures HeadLength(p) == k
  {
    if k < |p| {
      assert p[..|p| - 1][k - 1] == p[k - 1];
      HeadLengthAt(p[..|p| - 1], k);
    }
  }

  /** Whatever `dirname` returns has no trailing separator unless it is all separators. */
  lemma DirNameIsDirName(p: string)
    ensures IsDirName(DirName(p))
  {
  }

  /** Joining a component onto any path puts the last separator just before the component. */
  lemma JoinHead(a: string, name: string)
    requires IsComponent(name)
    ensures var p := Join(a, name);
            && HeadLength(p) == |p| - |name|
            && p[|p| - |name|..] == name
            && p[..|p| - |name|] == (if a == [] || EndsWithSlash(a) then a else a + "/")
  {
    var p := Join(a, name);
    if a == [] {
      assert p == name;
      assert forall i :: 0 <= i < |name| ==> name[i] != '/';
    } else if EndsWithSlash(a) {
      assert p == a + name;
      forall i | |a| <= i < |p| ensures p[i] != '/' {
        assert p[i] == name[i - |a|];
      }
      HeadLengthAt(p, |a|);
    } else {
      assert p == a + "/" + name;
      forall i | |a| + 1 <= i < |p| ensures p[i] != '/' {
        assert p[i] == name[i - |a| - 1];
      }
      HeadLengthAt(p, |a| + 1);
    }
  }

  /** `basename` of a join is the component joined, whatever it was joined onto. */
  lemma BaseNameJoin(a: string, name: string)
    requires IsComponent(name)
    ensures BaseName(Join(a, name)) == name
  {
    JoinHead(a, name);
  }

  /** Joining a component of a directory name that `dirname` could return, and splitting the result again, gives back both parts. */
  lemma SplitJoin(d: string, name: string)
    requires IsDirName(d) && IsComponent(name)
    ensures DirName(Join(d, name)) == d
    ensures BaseName(Join(d, name)) == name
  {
    JoinHead(d, name);
    var p := Join(d, name);
    var head := p[..HeadLength(p)];
    if d != [] && !EndsWithSlash(d) {
      assert head == d + "/";
      assert !AllSlashes(head) by {
        assert head[|d| - 1] == d[|d| - 1];
      }
      assert head[..|head| - 1] == d;
    }
  }

  /** A join whose last component does not end in a separator does not end in one either. */
  lemma JoinIsDirName(a: string, name: string)
    requires IsComponent(name)
    ensures IsDirName(Join(a, name))
  {
    var p := Join(a, name);
    assert p[|p| - 1] == name[|name| - 1];
    assert name[|name| - 1] in name;
  }
}
