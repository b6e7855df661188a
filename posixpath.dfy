/** The two `os.path` operations used on POSIX paths: `basename` and two-argument `join`. */
module PosixPath {

  /**
   * `os.path.basename(p)`: everything after the last '/', or all of `p`
   * when it has none.
   */
  function Basename(p: string): string
  {
    if p == [] then []
    else if p[|p| - 1] == '/' then []
    else Basename(p[..|p| - 1]) + [p[|p| - 1]]
  }

  /**
   * The basename is the suffix of `p` after its last '/': it has no '/', and
   * when it is shorter than `p` the character before it is a '/'.
   */
  lemma {:induction false} BasenameSpec(p: string)
    ensures var r := Basename(p);
      '/' !in r && |r| <= |p| && r == p[|p| - |r|..] &&
      (|r| < |p| ==> p[|p| - |r| - 1] == '/')
    decreases |p|
  {
    if p != [] && p[|p| - 1] != '/' {
      var q := p[..|p| - 1];
      BasenameSpec(q);
      var r := Basename(q);
      assert Basename(p) == r + [p[|p| - 1]];
      assert q[|q| - |r|..] + [p[|p| - 1]] == p[|p| - |r| - 1..];
    }
  }

  /**
   * `os.path.join(a, b)`: an absolute `b` replaces `a`; otherwise `b` is put
   * after `a`, with a '/' in between unless `a` is empty or already ends in one.
   */
  function Join(a: string, b: string): string
  {
    if b != [] && b[0] == '/' then b
    else if a == [] || a[|a| - 1] == '/' then a + b
    else a + "/" + b
  }

  /**
   * The shape of a join: `b` always ends it; an absolute `b` is all of it;
   * otherwise it starts with `a`, and at most one '/' stands between the two.
   */
  lemma JoinShape(a: string, b: string)
    ensures var r := Join(a, b);
      |b| <= |r| && r[|r| - |b|..] == b &&
      (b != [] && b[0] == '/' ==> r == b) &&
      ((b == [] || b[0] != '/') ==>
         |a| <= |r| - |b| <= |a| + 1 && r[..|a|] == a &&
         (|r| - |b| == |a| + 1 ==> r[|a|] == '/'))
  {
  }

  /** A name without '/' put after a directory-like prefix is its own basename. */
  lemma {:induction false} BasenameAfterSlash(x: string, b: string)
    requires '/' !in b
    requires x == [] || x[|x| - 1] == '/'
    ensures Basename(x + b) == b
    decreases |b|
  {
    if b != [] {
      var b' := b[..|b| - 1];
      BasenameAfterSlash(x, b');
      assert (x + b)[..|x + b| - 1] == x + b';
    } else {
      assert x + b == x;
    }
  }

  /** A file name joined onto any directory is recovered by `Basename`. */
  lemma BasenameOfJoin(root: string, name: string)
    requires '/' !in name
    ensures Basename(Join(root, name)) == name
  {
    if root == [] || root[|root| - 1] == '/' {
      BasenameAfterSlash(root, name);
    } else {
      assert root + "/" + name == (root + "/") + name;
      BasenameAfterSlash(root + "/", name);
    }
  }
}
