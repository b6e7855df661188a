/**
 * Flat indexes of library files built by walking search-path directories,
 * and lookup of indexed files by basename.
 */
module LibraryIndex {
  import PosixPath

  /** One directory visited by `os.walk`: its path and the names of the files in it. */
  datatype WalkDir = WalkDir(root: string, files: seq<string>)

  /** `os.walk` as a given function: the directories visited under a top directory, in walk order. */
  type Walker = string -> seq<WalkDir>

  /** The full paths of the files of one visited directory, in order. */
  function Joined(root: string, files: seq<string>): seq<string>
  {
    if files == [] then []
    else Joined(root, files[..|files| - 1]) + [PosixPath.Join(root, files[|files| - 1])]
  }

  lemma {:induction false} JoinedLength(root: string, files: seq<string>)
    ensures |Joined(root, files)| == |files|
    decreases |files|
  {
    if files != [] {
      JoinedLength(root, files[..|files| - 1]);
    }
  }

  /** The `k`-th path of a visited directory is its `k`-th file name joined onto its root. */
  lemma {:induction false} JoinedAt(root: string, files: seq<string>, k: nat)
    requires k < |files|
    ensures k < |Joined(root, files)| && Joined(root, files)[k] == PosixPath.Join(root, files[k])
    decreases |files|
  {
    var n := |files| - 1;
    if k < n {
      JoinedAt(root, files[..n], k);
    } else {
      JoinedLength(root, files[..n]);
    }
  }

  /** The full paths of the files of a sequence of visited directories, in order. */
  function Walked(dirs: seq<WalkDir>): seq<string>
  {
    if dirs == [] then []
    else Walked(dirs[..|dirs| - 1]) + Joined(dirs[|dirs| - 1].root, dirs[|dirs| - 1].files)
  }

  /** The index of a search path: every walked file of every entry, entry by entry. */
  function Index(paths: seq<string>, walk: Walker): seq<string>
  {
    if paths == [] then []
    else Index(paths[..|paths| - 1], walk) + Walked(walk(paths[|paths| - 1]))
  }

  /** The entries of `entries` whose basename is `name`, in order. */
  function WithBasename(entries: seq<string>, name: string): seq<string>
  {
    if entries == [] then []
    else
      var last := entries[|entries| - 1];
      WithBasename(entries[..|entries| - 1], name) + (if PosixPath.Basename(last) == name then [last] else [])
  }

  /** A lookup returns only entries of the index that have the requested basename. */
  lemma {:induction false} WithBasenameSound(entries: seq<string>, name: string, x: string)
    requires x in WithBasename(entries, name)
    ensures x in entries && PosixPath.Basename(x) == name
    decreases |entries|
  {
    var n := |entries| - 1;
    if x in WithBasename(entries[..n], name) {
      WithBasenameSound(entries[..n], name, x);
    }
  }

  /** A lookup returns every entry of the index that has the requested basename. */
  lemma {:induction false} WithBasenameComplete(entries: seq<string>, name: string, x: string)
    requires x in entries && PosixPath.Basename(x) == name
    ensures x in WithBasename(entries, name)
    decreases |entries|
  {
    var n := |entries| - 1;
    if x != entries[n] {
      assert x in entries[..n] by {
        var i :| 0 <= i < |entries| && entries[i] == x;
        assert entries[..n][i] == x;
      }
      WithBasenameComplete(entries[..n], name, x);
    }
  }

  /** `r` is obtained from `s` by deleting elements, keeping the order of the rest. */
  ghost predicate IsSubsequence<T>(r: seq<T>, s: seq<T>)
    decreases |s|
  {
    r == [] ||
    (s != [] &&
     (IsSubsequence(r, s[..|s| - 1]) ||
      (r[|r| - 1] == s[|s| - 1] && IsSubsequence(r[..|r| - 1], s[..|s| - 1]))))
  }

  /** A basename lookup keeps the matching entries in index order. */
  lemma {:induction false} WithBasenameIsSubsequence(entries: seq<string>, name: string)
    ensures IsSubsequence(WithBasename(entries, name), entries)
    decreases |entries|
  {
    if entries != [] {
      var n := |entries| - 1;
      var before := WithBasename(entries[..n], name);
      WithBasenameIsSubsequence(entries[..n], name);
      if PosixPath.Basename(entries[n]) == name {
        var r := before + [entries[n]];
        assert WithBasename(entries, name) == r;
        assert r[..|r| - 1] == before && r[|r| - 1] == entries[n];
        assert IsSubsequence(r, entries);
      } else {
        assert WithBasename(entries, name) == before;
        assert IsSubsequence(before, entries);
      }
    }
  }

  /**
   * A lookup keeps every occurrence: an entry with the requested basename
   * appears in the result exactly as often as in the index, any other entry
   * not at all.
   */
  lemma {:induction false} WithBasenameMultiplicity(entries: seq<string>, name: string, x: string)
    ensures multiset(WithBasename(entries, name))[x] ==
            if PosixPath.Basename(x) == name then multiset(entries)[x] else 0
    decreases |entries|
  {
    if entries != [] {
      var n := |entries| - 1;
      WithBasenameMultiplicity(entries[..n], name, x);
      assert entries == entries[..n] + [entries[n]];
      assert multiset(entries) == multiset(entries[..n]) + multiset([entries[n]]);
    }
  }

  /** A lookup is empty exactly when no entry has that basename. */
  lemma WithBasenameEmpty(entries: seq<string>, name: string)
    ensures WithBasename(entries, name) == [] <==>
            forall i :: 0 <= i < |entries| ==> PosixPath.Basename(entries[i]) != name
  {
    var r := WithBasename(entries, name);
    if r != [] {
      WithBasenameSound(entries, name, r[0]);
    } else {
      forall i | 0 <= i < |entries| ensures PosixPath.Basename(entries[i]) != name {
        if PosixPath.Basename(entries[i]) == name {
          WithBasenameComplete(entries, name, entries[i]);
        }
      }
    }
  }

  /** An index over consecutive parts of a search path is the concatenation of their indexes. */
  lemma {:induction false} IndexAppend(ps: seq<string>, qs: seq<string>, walk: Walker)
    ensures Index(ps + qs, walk) == Index(ps, walk) + Index(qs, walk)
    decreases |qs|
  {
    if qs != [] {
      var qs' := qs[..|qs| - 1];
      IndexAppend(ps, qs', walk);
      assert (ps + qs)[..|ps + qs| - 1] == ps + qs';
    } else {
      assert ps + qs == ps;
    }
  }

  /** File `k` of visited directory `j` of search-path entry `i`, when those indexes exist. */
  ghost predicate WalkedFile(ps: seq<string>, walk: Walker, i: int, j: int, k: int, x: string)
  {
    0 <= i < |ps| && 0 <= j < |walk(ps[i])| && 0 <= k < |walk(ps[i])[j].files| &&
    x == PosixPath.Join(walk(ps[i])[j].root, walk(ps[i])[j].files[k])
  }

  lemma {:induction false} WalkedComplete(dirs: seq<WalkDir>, j: nat, k: nat)
    requires j < |dirs| && k < |dirs[j].files|
    ensures PosixPath.Join(dirs[j].root, dirs[j].files[k]) in Walked(dirs)
    decreases |dirs|
  {
    var n := |dirs| - 1;
    if j < n {
      WalkedComplete(dirs[..n], j, k);
      assert dirs[..n][j] == dirs[j];
    } else {
      JoinedAt(dirs[n].root, dirs[n].files, k);
    }
  }

  lemma {:induction false} WalkedSound(dirs: seq<WalkDir>, x: string)
    requires x in Walked(dirs)
    ensures exists j, k :: 0 <= j < |dirs| && 0 <= k < |dirs[j].files| &&
                           x == PosixPath.Join(dirs[j].root, dirs[j].files[k])
    decreases |dirs|
  {
    var n := |dirs| - 1;
    if x in Walked(dirs[..n]) {
      WalkedSound(dirs[..n], x);
      var j, k :| 0 <= j < n && 0 <= k < |dirs[..n][j].files| &&
                  x == PosixPath.Join(dirs[..n][j].root, dirs[..n][j].files[k]);
      assert dirs[..n][j] == dirs[j];
    } else {
      var js := Joined(dirs[n].root, dirs[n].files);
      var k :| 0 <= k < |js| && js[k] == x;
      JoinedLength(dirs[n].root, dirs[n].files);
      JoinedAt(dirs[n].root, dirs[n].files, k);
    }
  }

  /** Every file walked under any search-path entry is in the index. */
  lemma {:induction false} IndexComplete(ps: seq<string>, walk: Walker, i: nat, j: nat, k: nat)
    requires i < |ps| && j < |walk(ps[i])| && k < |walk(ps[i])[j].files|
    ensures PosixPath.Join(walk(ps[i])[j].root, walk(ps[i])[j].files[k]) in Index(ps, walk)
    decreases |ps|
  {
    var n := |ps| - 1;
    if i < n {
      IndexComplete(ps[..n], walk, i, j, k);
      assert ps[..n][i] == ps[i];
    } else {
      WalkedComplete(walk(ps[n]), j, k);
    }
  }

  /** Everything in the index is a file walked under some search-path entry. */
  lemma {:induction false} IndexSound(ps: seq<string>, walk: Walker, x: string)
    requires x in Index(ps, walk)
    ensures exists i, j, k :: WalkedFile(ps, walk, i, j, k, x)
    decreases |ps|
  {
    var n := |ps| - 1;
    if x in Index(ps[..n], walk) {
      IndexSound(ps[..n], walk, x);
      var i, j, k :| WalkedFile(ps[..n], walk, i, j, k, x);
      assert ps[..n][i] == ps[i];
      assert WalkedFile(ps, walk, i, j, k, x);
    } else {
      WalkedSound(walk(ps[n]), x);
      var j, k :| 0 <= j < |walk(ps[n])| && 0 <= k < |walk(ps[n])[j].files| &&
                  x == PosixPath.Join(walk(ps[n])[j].root, walk(ps[n])[j].files[k]);
      assert WalkedFile(ps, walk, n, j, k, x);
    }
  }

  /** Every walked file is found when its own name is looked up in the index. */
  lemma FindWalkedFile(ps: seq<string>, walk: Walker, i: nat, j: nat, k: nat)
    requires i < |ps| && j < |walk(ps[i])| && k < |walk(ps[i])[j].files|
    requires '/' !in walk(ps[i])[j].files[k]
    ensures PosixPath.Join(walk(ps[i])[j].root, walk(ps[i])[j].files[k])
              in WithBasename(Index(ps, walk), walk(ps[i])[j].files[k])
  {
    IndexComplete(ps, walk, i, j, k);
    PosixPath.BasenameOfJoin(walk(ps[i])[j].root, walk(ps[i])[j].files[k]);
    WithBasenameComplete(Index(ps, walk), walk(ps[i])[j].files[k],
                         PosixPath.Join(walk(ps[i])[j].root, walk(ps[i])[j].files[k]));
  }

  /** `listAll`: walks every search-path entry in order and collects the full file paths. */
  method ListAll(paths: seq<string>, walk: Walker) returns (r: seq<string>)
    ensures r == Index(paths, walk)
  {
    r := [];
    var i := 0;
    while i < |paths|
      invariant 0 <= i <= |paths|
      invariant r == Index(paths[..i], walk)
    {
      var found := ListWalk(walk(paths[i]));
      r := r + found;
      assert paths[..i + 1][..i] == paths[..i];
      i := i + 1;
    }
    assert paths[..i] == paths;
  }

  /** The loop over the directories of one walk, and over the files of each. */
  method ListWalk(dirs: seq<WalkDir>) returns (r: seq<string>)
    ensures r == Walked(dirs)
  {
    r := [];
    var j := 0;
    while j < |dirs|
      invariant 0 <= j <= |dirs|
      invariant r == Walked(dirs[..j])
    {
      var root, files := dirs[j].root, dirs[j].files;
      var k := 0;
      ghost var before := r;
      while k < |files|
        invariant 0 <= k <= |files|
        invariant r == before + Joined(root, files[..k])
      {
        r := r + [PosixPath.Join(root, files[k])];
        assert files[..k + 1][..k] == files[..k];
        assert Joined(root, files[..k + 1]) == Joined(root, files[..k]) + [PosixPath.Join(root, files[k])];
        k := k + 1;
      }
      assert files[..k] == files;
      assert dirs[..j + 1][..j] == dirs[..j];
      assert Walked(dirs[..j + 1]) == Walked(dirs[..j]) + Joined(root, files);
      j := j + 1;
    }
    assert dirs[..j] == dirs;
  }

  /** `findByBasename`: a linear scan keeping the entries whose basename is `name`. */
  method SelectByBasename(entries: seq<string>, name: string) returns (r: seq<string>)
    ensures r == WithBasename(entries, name)
  {
    r := [];
    var i := 0;
    while i < |entries|
      invariant 0 <= i <= |entries|
      invariant r == WithBasename(entries[..i], name)
    {
      if PosixPath.Basename(entries[i]) == name {
        r := r + [entries[i]];
      }
      assert entries[..i + 1][..i] == entries[..i];
      i := i + 1;
    }
    assert entries[..i] == entries;
  }
}
