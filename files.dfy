/**
 * The local filesystem the ingest pipeline works on: a tree of regular
 * files and directories keyed by absolute path, and the pathlib, os and
 * shutil calls the core makes on it.
 */
module Files {
  import opened PyValues
  import opened Paths

  datatype Node = File(content: seq<bv8>) | Dir

  /** The root is a directory and every entry's parent is a directory. */
  ghost predicate ValidTree(m: map<Path, Node>) {
    && [] in m && m[[]] == Dir
    && forall p :: p in m && p != [] ==> Parent(p) in m && m[Parent(p)] == Dir
  }

  predicate IsFile(m: map<Path, Node>, p: Path) {
    p in m && m[p].File?
  }

  /** `p` or one of its ancestors is a regular file, so no directory can be made at `p`. */
  predicate BlockedByFile(m: map<Path, Node>, p: Path) {
    exists k :: 0 <= k <= |p| && IsFile(m, p[..k])
  }

  function Prefixes(p: Path): set<Path> {
    set k | 0 <= k <= |p| :: p[..k]
  }

  /** `m` after creating every missing directory on the way to `p`. */
  function WithDirs(m: map<Path, Node>, p: Path): map<Path, Node> {
    m + map q | q in Prefixes(p) && q !in m :: Dir
  }

  /** Everything strictly below `dir`, as `dir.rglob("*")` visits it. */
  function Descendants(m: map<Path, Node>, dir: Path): set<Path> {
    set q | q in m && |dir| < |q| && q[..|dir|] == dir
  }

  /** `m` after `shutil.rmtree(dir)`. */
  function WithoutTree(m: map<Path, Node>, dir: Path): map<Path, Node> {
    map q | q in m && !IsPrefix(dir, q) :: m[q]
  }

  /** `p.mkdir(parents=True, exist_ok=existOk)` returns without raising. */
  predicate MkdirSucceeds(m: map<Path, Node>, p: Path, existOk: bool) {
    if p in m then existOk && m[p] == Dir else !BlockedByFile(m, p)
  }

  /** `m` after `os.replace(src, dst)` of a regular file. */
  function Replaced(m: map<Path, Node>, src: Path, dst: Path): map<Path, Node>
    requires src in m
  {
    (m - {src})[dst := m[src]]
  }

  /** An entry's ancestors are all present. */
  lemma {:induction false} AncestorsPresent(m: map<Path, Node>, a: Path, q: Path)
    requires ValidTree(m) && q in m && IsPrefix(a, q)
    ensures a in m && (a != q ==> m[a] == Dir)
    decreases |q|
  {
    if a != q {
      assert q != [];
      assert IsPrefix(a, Parent(q));
      AncestorsPresent(m, a, Parent(q));
    }
  }

  /** A directory just created has nothing below it. */
  lemma FreshDirIsEmpty(m: map<Path, Node>, dir: Path)
    requires ValidTree(m) && dir !in m
    ensures Descendants(WithDirs(m, dir), dir) == {}
  {
    forall q | q in WithDirs(m, dir) && |dir| < |q| ensures q[..|dir|] != dir {
      if q in m && IsPrefix(dir, q) {
        AncestorsPresent(m, dir, q);
      }
    }
  }

  lemma WithDirsValid(m: map<Path, Node>, p: Path)
    requires ValidTree(m) && !BlockedByFile(m, p)
    ensures ValidTree(WithDirs(m, p))
    ensures p in WithDirs(m, p) && WithDirs(m, p)[p] == Dir
    ensures forall q :: q in m ==> q in WithDirs(m, p) && WithDirs(m, p)[q] == m[q]
  {
    var w := WithDirs(m, p);
    assert p == p[..|p|] && p in Prefixes(p);
    assert !IsFile(m, p[..|p|]);
    forall q | q in w && q != [] ensures Parent(q) in w && w[Parent(q)] == Dir {
      if q !in m {
        var k :| 0 <= k <= |p| && q == p[..k];
        assert Parent(q) == p[..k - 1];
        assert !IsFile(m, p[..k - 1]);
      }
    }
  }

  lemma WithoutTreeValid(m: map<Path, Node>, dir: Path)
    requires ValidTree(m) && dir != []
    ensures ValidTree(WithoutTree(m, dir))
  {
    var w := WithoutTree(m, dir);
    assert !IsPrefix(dir, []);
    forall q | q in w && q != [] ensures Parent(q) in w && w[Parent(q)] == Dir {
      assert IsPrefix(dir, Parent(q)) ==> IsPrefix(dir, q);
    }
  }

  class FileSystem {
    var entries: map<Path, Node>

    ghost predicate Valid()
      reads this
    {
      ValidTree(entries)
    }

    constructor (init: map<Path, Node>)
      requires ValidTree(init)
      ensures Valid() && entries == init
    {
      entries := init;
    }

    /**
     * `p.mkdir(parents=True, exist_ok=existOk)`. An existing `p` raises
     * FileExistsError unless it is a directory and `existOk` holds; a
     * regular file among the ancestors raises NotADirectoryError; else
     * every missing directory down to `p` is created.
     */
    method Mkdir(p: Path, existOk: bool) returns (r: Outcome<()>)
      requires Valid()
      modifies this
      ensures Valid()
      ensures p in old(entries) ==>
        r == (if existOk && old(entries)[p] == Dir then Value(()) else Raised(FileExistsError))
      ensures p !in old(entries) && BlockedByFile(old(entries), p) ==> r == Raised(NotADirectoryError)
      ensures r.Value? <==> MkdirSucceeds(old(entries), p, existOk)
      ensures r.Raised? || p in old(entries) ==> entries == old(entries)
      ensures r.Value? ==> entries == WithDirs(old(entries), p) && p in entries && entries[p] == Dir
    {
      if p in entries {
        r := if existOk && entries[p] == Dir then Value(()) else Raised(FileExistsError);
        if r.Value? {
          assert forall q :: q in Prefixes(p) ==> q in entries by {
            forall q | q in Prefixes(p) ensures q in entries {
              var k :| 0 <= k <= |p| && q == p[..k];
              AncestorsPresent(entries, q, p);
            }
          }
          assert WithDirs(entries, p) == entries;
        }
      } else if BlockedByFile(entries, p) {
        r := Raised(NotADirectoryError);
      } else {
        WithDirsValid(entries, p);
        entries := WithDirs(entries, p);
        r := Value(());
      }
    }

    /** `shutil.rmtree(dir, ignore_errors=True)` */
    method RemoveTree(dir: Path)
      requires Valid() && dir != []
      modifies this
      ensures Valid() && entries == WithoutTree(old(entries), dir)
    {
      WithoutTreeValid(entries, dir);
      entries := WithoutTree(entries, dir);
    }

    /** `os.replace(src, dst)` of a regular file into an existing directory. */
    method Replace(src: Path, dst: Path)
      requires Valid() && IsFile(entries, src) && dst != [] && dst !in entries
      requires Parent(dst) in entries && entries[Parent(dst)] == Dir
      modifies this
      ensures Valid() && entries == Replaced(old(entries), src, dst)
    {
      var m := Replaced(entries, src, dst);
      forall q | q in m && q != [] ensures Parent(q) in m && m[Parent(q)] == Dir {
        if q != dst {
          assert Parent(q) != src;
        }
      }
      entries := m;
    }
  }
}
