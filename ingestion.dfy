/**
 * The ingest routing: which files are music, which are archives, the
 * quick probe decision, where an archive is unpacked, and which files
 * reach the organize step.
 *
 * The probe, the archive reader and the organize step are outside this
 * module: a probe run is an input value, the archive's listing is an
 * input value, and the files handed to the quick check and to organize
 * are recorded, in order, in the traces a call returns.
 */
module Ingestion {
  import opened PyValues
  import opened PyText
  import opened Paths
  import opened Files
  import opened MediaTypes
  import opened Metadata

  // ---------------------------------------------------------------------
  // File classification

  /** `is_music_file`: the lower-cased suffix of the name is an audio extension. */
  predicate IsMusicFile(p: Path) {
    Lower(Suffix(Name(p))) in AudioExtensions
  }

  /** `is_archive`: the lower-cased name ends with an archive extension. */
  predicate IsArchive(p: Path) {
    exists e :: e in ArchiveExtensions && EndsWith(Lower(Name(p)), e)
  }

  lemma LowerFrom(s: string, i: nat)
    requires i <= |s|
    ensures Lower(s[i..]) == Lower(s)[i..]
  {
  }

  lemma LowerConcat(a: string, b: string)
    ensures Lower(a + b) == Lower(a) + Lower(b)
  {
    assert forall i :: 0 <= i < |a| + |b| ==> (a + b)[i] == if i < |a| then a[i] else b[i - |a|];
  }

  lemma LowerOfUpperChar(c: char)
    ensures LowerChar(UpperChar(c)) == LowerChar(c)
    ensures LowerChar(LowerChar(c)) == LowerChar(c)
  {
  }

  lemma LowerOfUpper(s: string)
    ensures Lower(Upper(s)) == Lower(s)
    ensures Lower(Lower(s)) == Lower(s)
  {
    forall i | 0 <= i < |s|
      ensures Lower(Upper(s))[i] == Lower(s)[i] && Lower(Lower(s))[i] == Lower(s)[i]
    {
      LowerOfUpperChar(s[i]);
    }
  }

  /** `lowered` ends with an audio extension that leaves at least one character of `len` in front. */
  predicate EndsWithAudioExtension(lowered: string, len: int) {
    exists e :: e in AudioExtensions && |e| < len && EndsWith(lowered, e)
  }

  /**
   * A name is a music file exactly when its lower-cased form ends with an
   * audio extension that leaves at least one character in front of it.
   */
  lemma MusicFileIff(p: Path)
    ensures IsMusicFile(p) <==> EndsWithAudioExtension(Lower(Name(p)), |Name(p)|)
  {
    var n := Name(p);
    AudioExtensionsAreSingleSuffixes();
    if IsMusicFile(p) {
      var e := Lower(Suffix(n));
      assert IsSingleSuffix(e);
      SuffixEndsName(n);
      assert e in AudioExtensions && |e| < |n| && EndsWith(Lower(n), e);
    }
    if EndsWithAudioExtension(Lower(n), |n|) {
      var e :| e in AudioExtensions && |e| < |n| && EndsWith(Lower(n), e);
      EndingGivesSuffix(n, e);
    }
  }

  lemma SuffixEndsName(n: string)
    requires Suffix(n) != []
    ensures |Suffix(n)| < |n| && EndsWith(Lower(n), Lower(Suffix(n)))
  {
    var r := Suffix(n);
    LowerFrom(n, |n| - |r|);
    assert n[|n| - |r|..] == r;
  }

  lemma EndingGivesSuffix(n: string, e: string)
    requires IsSingleSuffix(e) && |e| < |n| && EndsWith(Lower(n), e)
    ensures Lower(Suffix(n)) == e
  {
    DotsOfEnding(n, e);
    LowerTail(n, e);
  }

  lemma LowerTail(n: string, e: string)
    requires |e| <= |n| && EndsWith(Lower(n), e)
    ensures Lower(n[|n| - |e|..]) == e
  {
    var k := |n| - |e|;
    assert |Lower(n)| - |e| == k;
    assert Lower(n)[k..] == e;
    LowerFrom(n, k);
  }

  lemma DotsOfEnding(n: string, e: string)
    requires IsSingleSuffix(e) && |e| < |n| && EndsWith(Lower(n), e)
    ensures Suffix(n) == n[|n| - |e|..]
  {
    var i := |n| - |e|;
    forall j | i <= j < |n| ensures n[j] == '.' <==> j == i {
      EndsWithAt(Lower(n), e, j);
    }
    LastDotAt(n, i);
  }

  lemma EndsWithAt(s: string, e: string, j: int)
    requires EndsWith(s, e) && |s| - |e| <= j < |s|
    ensures s[j] == e[j - (|s| - |e|)]
  {
    assert s[|s| - |e|..][j - (|s| - |e|)] == s[j];
  }

  lemma LastDotAt(n: string, i: int)
    requires 0 < i < |n| - 1 && n[i] == '.'
    requires forall j :: i < j < |n| ==> n[j] != '.'
    ensures Suffix(n) == n[i..]
  {
    var k := LastIndexOf(n, '.');
    assert k >= i;
  }

  /** Lower-casing keeps every dot where it is, so it commutes with taking the suffix. */
  lemma LowerSuffix(n: string)
    ensures Lower(Suffix(n)) == Suffix(Lower(n))
  {
    var k := LastIndexOf(n, '.');
    var k' := LastIndexOf(Lower(n), '.');
    if k >= 0 {
      assert Lower(n)[k] == '.';
    }
    if k' >= 0 {
      assert LowerChar(n[k']) == '.';
    }
    assert k == k';
    if 0 < k < |n| - 1 {
      LowerFrom(n, k);
    }
  }

  /** Upper- and lower-case names are classified alike. */
  lemma MusicFileIgnoresCase(dir: Path, name: string)
    ensures IsMusicFile(dir + [Upper(name)]) <==> IsMusicFile(dir + [name])
    ensures IsMusicFile(dir + [Lower(name)]) <==> IsMusicFile(dir + [name])
  {
    var upper, lower := Upper(name), Lower(name);
    assert Name(dir + [upper]) == upper && Name(dir + [lower]) == lower && Name(dir + [name]) == name;
    LowerOfUpper(name);
    SameLoweredName(upper, name);
    SameLoweredName(lower, name);
  }

  lemma SameLoweredName(a: string, b: string)
    requires Lower(a) == Lower(b)
    ensures Lower(Suffix(a)) == Lower(Suffix(b))
  {
    LowerSuffix(a);
    LowerSuffix(b);
  }

  /** A name without a dot, or one whose only dot leads it, is not music. */
  lemma UndottedNameIsNotMusic(p: Path)
    requires '.' !in Name(p) || LastIndexOf(Name(p), '.') == 0
    ensures !IsMusicFile(p)
  {
    assert Suffix(Name(p)) == "";
  }

  /**
   * Putting anything in front of an archive's name keeps it an archive,
   * which is what lets names carry extra dots ("my.album.v1.zip").
   */
  lemma ArchiveUnderPrefix(dir: Path, name: string, otherDir: Path, prefix: string)
    requires IsArchive(dir + [name])
    ensures IsArchive(otherDir + [prefix + name])
  {
    assert Name(dir + [name]) == name;
    var e :| e in ArchiveExtensions && EndsWith(Lower(name), e);
    LowerConcat(prefix, name);
    EndsWithUnderPrefix(Lower(prefix), Lower(name), e);
    assert Name(otherDir + [prefix + name]) == prefix + name;
  }

  lemma EndsWithUnderPrefix(prefix: string, s: string, e: string)
    requires EndsWith(s, e)
    ensures EndsWith(prefix + s, e)
  {
    assert (prefix + s)[|prefix + s| - |e|..] == s[|s| - |e|..];
  }

  /** A ".zip" in any letter case, after any prefix, is an archive. */
  lemma ZipIsArchive(dir: Path, prefix: string)
    ensures IsArchive(dir + [prefix + ".ZIP"])
    ensures IsArchive(dir + [prefix + ".zip"])
  {
    assert Lower(".ZIP") == ".zip";
    assert Lower(".zip") == ".zip";
    assert EndsWith(Lower(".zip"), ".zip");
    ArchiveUnderPrefix([], ".ZIP", dir, prefix);
    ArchiveUnderPrefix([], ".zip", dir, prefix);
  }

  /** "my.album.v1.zip" is an archive. */
  lemma DottedZipIsArchive(dir: Path)
    ensures IsArchive(dir + ["my.album.v1.zip"])
  {
    var n := "my.album.v1.zip";
    assert Name(dir + [n]) == n;
    assert n[11..] == ".zip";
    LowerFrom(n, 11);
    assert Lower(".zip") == ".zip";
    assert EndsWith(Lower(n), ".zip");
  }

  /** "backup.2025.12.tar.gz" is unpacked into `base/backup`. */
  lemma MultiDotArchiveStem(dir: Path, base: Path)
    ensures ExtractDirName(dir + ["backup.2025.12.tar.gz"]) == "backup"
    ensures Join(base, ExtractDirName(dir + ["backup.2025.12.tar.gz"])) == base + ["backup"]
  {
    assert "backup" + "." + "2025.12.tar.gz" == "backup.2025.12.tar.gz";
    assert Name(dir + ["backup.2025.12.tar.gz"]) == "backup.2025.12.tar.gz";
    assert IsPlainName("backup");
    ExtractDirStem(dir + ["backup.2025.12.tar.gz"], base, "backup", "2025.12.tar.gz");
  }

  /** Only ".tar.gz" ends in 'z', and "archive.gz" has no ".tar" before its ".gz". */
  lemma GzIsNotArchive(dir: Path)
    ensures !IsArchive(dir + ["archive.gz"])
  {
    var n := Lower(Name(dir + ["archive.gz"]));
    assert |n| == 10 && n[9] == 'z' && n[3] == 'h';
  }

  /** No archive extension ends in 'e', so "archive" is not an archive. */
  lemma PlainNameIsNotArchive(dir: Path)
    ensures !IsArchive(dir + ["archive"])
  {
    var n := Lower(Name(dir + ["archive"]));
    assert n[|n| - 1] == 'e';
  }

  // ---------------------------------------------------------------------
  // The quick check

  /**
   * What running the quick ffprobe command came to: the tool was missing,
   * the operating system refused to run it, or it exited with a code and
   * printed output that decoded to a JSON value (None when it did not).
   */
  datatype ProbeRun = ToolMissing | OsFailure | Exited(code: int, decoded: Option<Json>)

  /**
   * The probe ran, exited with 0, printed a JSON object whose "streams"
   * (default []) is a list, and that list holds an object whose
   * codec_type is "audio".
   */
  predicate PassesQuickCheck(run: ProbeRun) {
    && run.Exited? && run.code == 0 && run.decoded.Some? && run.decoded.value.JObj?
    && var streams := GetOr(run.decoded.value.fields, "streams", JArr([]));
       && streams.JArr?
       && exists i :: 0 <= i < |streams.items| && IsAudioStream(streams.items[i])
  }

  /** `does_music_pass_quick_check` after the subprocess has run. */
  method DoesMusicPassQuickCheck(run: ProbeRun) returns (pass: bool)
    ensures pass == PassesQuickCheck(run)
  {
    if !run.Exited? || run.code != 0 {
      return false;
    }
    if run.decoded.None? {
      return false;
    }
    var output := run.decoded.value;
    if !output.JObj? {
      return false;
    }
    var streams := GetOr(output.fields, "streams", JArr([]));
    if !streams.JArr? {
      return false;
    }
    var xs := streams.items;
    for i := 0 to |xs|
      invariant forall j :: 0 <= j < i ==> !IsAudioStream(xs[j])
    {
      if xs[i].JObj? && GetOr(xs[i].fields, "codec_type", JNull) == JStr("audio") {
        return true;
      }
    }
    return false;
  }

  /** The cases the quick check turns down, and the smallest one it accepts. */
  lemma QuickCheckCases(code: int, other: Json)
    requires code != 0 && !other.JObj?
    ensures !PassesQuickCheck(ToolMissing) && !PassesQuickCheck(OsFailure)
    ensures !PassesQuickCheck(Exited(code, Some(JObj(map["streams" := JArr([JObj(map["codec_type" := JStr("audio")])])]))))
    ensures !PassesQuickCheck(Exited(0, None)) && !PassesQuickCheck(Exited(0, Some(other)))
    ensures !PassesQuickCheck(Exited(0, Some(JObj(map[]))))
    ensures !PassesQuickCheck(Exited(0, Some(JObj(map["streams" := JNull]))))
    ensures !PassesQuickCheck(Exited(0, Some(JObj(map["streams" := JArr([])]))))
    ensures !PassesQuickCheck(Exited(0, Some(JObj(map["streams" := JArr([JStr("audio"), JObj(map["codec_type" := JStr("video")])])]))))
    ensures PassesQuickCheck(Exited(0, Some(JObj(map["streams" := JArr([JStr("audio"), JObj(map["codec_type" := JStr("audio")])])]))))
  {
    var xs := [JStr("audio"), JObj(map["codec_type" := JStr("video")])];
    assert !IsAudioStream(xs[0]) && !IsAudioStream(xs[1]);
    var ys := [JStr("audio"), JObj(map["codec_type" := JStr("audio")])];
    assert IsAudioStream(ys[1]);
  }

  // ---------------------------------------------------------------------
  // Where an archive is unpacked

  /** `archive_path.name.split(".", 1)[0]` */
  function ExtractDirName(archive: Path): (r: string)
    ensures '.' !in r
    ensures r == Name(archive) || (|r| < |Name(archive)| && Name(archive)[..|r| + 1] == r + ".")
  {
    var name := Name(archive);
    var r := BeforeFirst(name, '.');
    if |r| < |name| then assert name[..|r| + 1] == r + "."; r else r
  }

  /**
   * "live.2021.zip" is unpacked into a directory "live" below the
   * workspace; a name that starts with a dot, such as ".zip", leaves an
   * empty stem, so the first candidate is the workspace itself.
   */
  lemma ExtractDirStem(archive: Path, base: Path, stem: string, rest: string)
    requires Name(archive) == stem + "." + rest && '.' !in stem
    ensures ExtractDirName(archive) == stem
    ensures stem == "" ==> Join(base, ExtractDirName(archive)) == base
    ensures IsPlainName(stem) ==> Join(base, ExtractDirName(archive)) == base + [stem]
  {
    BeforeFirstOfPrefix(stem, '.', rest);
    assert stem + "." + rest == stem + ['.'] + rest;
    if IsPlainName(stem) {
      JoinPlainName(base, stem);
    }
    if stem == "" {
      assert BeforeFirst("", '/') == "";
      assert Split("", '/') == [""];
      assert Parts([""]) == [];
      assert Join(base, "") == base + [];
    }
  }

  function Repeat(s: string, k: nat): string {
    if k == 0 then "" else s + Repeat(s, k - 1)
  }

  /** `p.with_name(p.name + "_1")`, for a `p` that has a name. */
  function Next(p: Path): Path {
    Parent(p) + [Name(p) + "_1"]
  }

  /** `p` after `k` rounds of `Next`. */
  function Renamed(p: Path, k: nat): Path
    decreases k
  {
    if k == 0 then p else Renamed(Next(p), k - 1)
  }

  /** The `k`-th candidate is `p` with "_1" appended `k` times to its name. */
  lemma {:induction false} RenamedName(p: Path, k: nat)
    requires p != []
    decreases k
    ensures Renamed(p, k) == Parent(p) + [Name(p) + Repeat("_1", k)]
    ensures Renamed(p, k) != [] && Parent(Renamed(p, k)) == Parent(p)
  {
    if k > 0 {
      var next := Next(p);
      assert Parent(next) == Parent(p) && Name(next) == Name(p) + "_1";
      RenamedName(next, k - 1);
      assert Name(p) + Repeat("_1", k) == Name(p) + "_1" + Repeat("_1", k - 1);
    } else {
      assert Name(p) + Repeat("_1", 0) == Name(p);
      assert Parent(p) + [Name(p)] == p;
    }
  }

  /** The existing siblings of `p` whose names extend its name. */
  function Taken(m: map<Path, Node>, p: Path): set<Path> {
    set q | q in m && p != [] && q != [] && Parent(q) == Parent(p)
      && |Name(p)| <= |Name(q)| && Name(q)[..|Name(p)|] == Name(p)
  }

  lemma TakenShrinks(m: map<Path, Node>, p: Path)
    requires p != [] && p in m
    ensures Taken(m, Next(p)) < Taken(m, p)
  {
    var next := Next(p);
    assert Parent(next) == Parent(p) && Name(next) == Name(p) + "_1";
    forall q | q in Taken(m, next) ensures q in Taken(m, p) {
      assert Name(q)[..|Name(p)|] == Name(q)[..|Name(next)|][..|Name(p)|];
    }
    assert p in Taken(m, p);
    assert p !in Taken(m, next);
  }

  /**
   * `handle_extract_path`: `p` with "_1" appended `k` times, where every
   * earlier candidate already existed and this one did not and is now a
   * directory. The root has no name to extend (ValueError), and a regular
   * file on the way to the free candidate makes mkdir raise.
   */
  method HandleExtractPath(fs: FileSystem, p: Path) returns (r: Outcome<Path>, ghost k: nat)
    requires fs.Valid()
    modifies fs
    decreases Taken(fs.entries, p)
    ensures fs.Valid()
    ensures forall j :: 0 <= j < k ==> Renamed(p, j) in old(fs.entries)
    ensures r == Raised(ValueError) <==> p == []
    ensures r.Raised? ==> fs.entries == old(fs.entries)
    ensures r.Raised? && p != [] ==>
      && r.error == NotADirectoryError
      && Renamed(p, k) !in old(fs.entries) && BlockedByFile(old(fs.entries), Renamed(p, k))
    ensures r.Value? ==>
      && r.value == Renamed(p, k) && r.value != []
      && r.value !in old(fs.entries)
      && fs.entries == WithDirs(old(fs.entries), r.value)
  {
    var made := fs.Mkdir(p, false);
    if made.Value? {
      assert p != [] && Renamed(p, 0) == p;
      return Value(p), 0;
    }
    assert fs.entries == old(fs.entries);
    if made.error != FileExistsError {
      assert p !in fs.entries && Renamed(p, 0) == p;
      return Raised(made.error), 0;
    }
    if p == [] {
      return Raised(ValueError), 0;
    }
    TakenShrinks(fs.entries, p);
    ghost var k': nat;
    r, k' := HandleExtractPath(fs, Next(p));
    k := k' + 1;
    assert Renamed(p, k) == Renamed(Next(p), k');
    EarlierCandidates(old(fs.entries), p, k');
  }

  lemma EarlierCandidates(m: map<Path, Node>, p: Path, k: nat)
    requires p in m
    requires forall j :: 0 <= j < k ==> Renamed(Next(p), j) in m
    ensures forall j :: 0 <= j < k + 1 ==> Renamed(p, j) in m
  {
    forall j | 0 <= j < k + 1 ensures Renamed(p, j) in m {
      if j > 0 {
        assert Renamed(p, j) == Renamed(Next(p), j - 1);
      }
    }
  }

  /** What the archive reader makes of the archive. */
  datatype ArchiveReading =
    | Unreadable                          // some step raised; the directory is removed
    | Unpacked(tree: map<Path, Node>)     // the files and directories, relative to the directory

  /** A listing whose paths are relative and non-empty, under directories it lists. */
  ghost predicate TreeOk(tree: map<Path, Node>) {
    && [] !in tree
    && forall t :: t in tree && |t| > 1 ==> Parent(t) in tree && tree[Parent(t)] == Dir
  }

  /** `m` with the listing written under `dir`. */
  function Placed(m: map<Path, Node>, dir: Path, tree: map<Path, Node>): map<Path, Node> {
    assert forall t :: (dir + t)[|dir|..] == t;
    m + map t | t in tree :: dir + t := tree[t]
  }

  /** The listing lands on paths that were free below the empty directory. */
  lemma PlacedFresh(m: map<Path, Node>, dir: Path, tree: map<Path, Node>)
    requires Descendants(m, dir) == {} && TreeOk(tree)
    ensures forall t :: t in tree ==> dir + t !in m
  {
    forall t | t in tree ensures dir + t !in m {
      assert (dir + t)[..|dir|] == dir;
      assert dir + t !in Descendants(m, dir);
    }
  }

  lemma PlacedValid(m: map<Path, Node>, dir: Path, tree: map<Path, Node>)
    requires ValidTree(m) && dir in m && m[dir] == Dir && Descendants(m, dir) == {}
    requires TreeOk(tree)
    ensures ValidTree(Placed(m, dir, tree))
    ensures forall q :: q in m ==> q in Placed(m, dir, tree) && Placed(m, dir, tree)[q] == m[q]
  {
    var w := Placed(m, dir, tree);
    PlacedFresh(m, dir, tree);
    forall q | q in m ensures q in w && w[q] == m[q] {
      PlacedLookup(m, dir, tree, q);
    }
    forall q | q in w && q != [] ensures Parent(q) in w && w[Parent(q)] == Dir {
      PlacedLookup(m, dir, tree, q);
      PlacedLookup(m, dir, tree, Parent(q));
      if q !in m {
        var t := q[|dir|..];
        assert q == dir + t;
        if |t| > 1 {
          assert Parent(q) == dir + Parent(t);
          assert Parent(q)[..|dir|] == dir && Parent(q)[|dir|..] == Parent(t);
        } else {
          assert Parent(q) == dir;
        }
      }
    }
  }

  /** Where a path of the placed map comes from: `m`, or the listing below `dir`. */
  lemma PlacedLookup(m: map<Path, Node>, dir: Path, tree: map<Path, Node>, q: Path)
    requires forall t :: t in tree ==> dir + t !in m
    ensures q in Placed(m, dir, tree) <==> q in m || (|dir| <= |q| && q[..|dir|] == dir && q[|dir|..] in tree)
    ensures q in m ==> Placed(m, dir, tree)[q] == m[q]
    ensures q !in m && q in Placed(m, dir, tree) ==> Placed(m, dir, tree)[q] == tree[q[|dir|..]]
  {
    if |dir| <= |q| && q[..|dir|] == dir {
      assert q == dir + q[|dir|..];
    }
  }

  /** After placing, what lies below the directory is exactly the listing. */
  lemma PlacedDescendants(m: map<Path, Node>, dir: Path, tree: map<Path, Node>)
    requires Descendants(m, dir) == {} && TreeOk(tree)
    ensures Descendants(Placed(m, dir, tree), dir) == set t | t in tree :: dir + t
  {
    var w := Placed(m, dir, tree);
    forall q | q in Descendants(w, dir) ensures q in set t | t in tree :: dir + t {
      assert q !in Descendants(m, dir);
    }
    forall t | t in tree ensures dir + t in Descendants(w, dir) {
      assert (dir + t)[..|dir|] == dir;
    }
  }

  /**
   * The part of `extract_archive` this model keeps: the directory is
   * chosen and created by `handle_extract_path` (whose errors propagate);
   * a failed reading removes it again and gives None; a listing is
   * written under it and the directory is returned.
   */
  method ExtractArchive(fs: FileSystem, archive: Path, base: Path, reading: ArchiveReading)
    returns (r: Outcome<Option<Path>>, ghost dir: Path, ghost k: nat)
    requires fs.Valid()
    requires reading.Unpacked? ==> TreeOk(reading.tree)
    modifies fs
    ensures fs.Valid()
    ensures var first := Join(base, ExtractDirName(archive));
      && (forall j :: 0 <= j < k ==> Renamed(first, j) in old(fs.entries))
      && (r == Raised(ValueError) <==> first == [])
      && (r.Value? ==> dir == Renamed(first, k))
      && (r.Raised? && first != [] ==>
            && r.error == NotADirectoryError
            && Renamed(first, k) !in old(fs.entries) && BlockedByFile(old(fs.entries), Renamed(first, k)))
    ensures r.Raised? ==> fs.entries == old(fs.entries)
    ensures r.Value? ==> dir != [] && dir !in old(fs.entries)
    ensures r.Value? && r.value.Some? ==> dir in fs.entries && fs.entries[dir] == Dir
    ensures r.Value? && reading.Unreadable? ==>
      r.value == None && fs.entries == WithoutTree(WithDirs(old(fs.entries), dir), dir)
    ensures r.Value? && reading.Unpacked? ==>
      && r.value == Some(dir)
      && fs.entries == Placed(WithDirs(old(fs.entries), dir), dir, reading.tree)
      && Descendants(fs.entries, dir) == set t | t in reading.tree :: dir + t
  {
    var made;
    made, k := HandleExtractPath(fs, Join(base, ExtractDirName(archive)));
    if made.Raised? {
      return Raised(made.error), [], k;
    }
    var extractDir := made.value;
    dir := extractDir;
    assert dir in Prefixes(dir) by {
      assert dir == dir[..|dir|];
    }
    match reading
    case Unreadable =>
      fs.RemoveTree(extractDir);
      r := Value(None);
    case Unpacked(tree) =>
      FreshDirIsEmpty(old(fs.entries), dir);
      PlacedValid(fs.entries, dir, tree);
      PlacedDescendants(fs.entries, dir, tree);
      fs.entries := Placed(fs.entries, extractDir, tree);
      r := Value(Some(extractDir));
  }

  /** Two extractions of the same archive never share a directory. */
  method ExtractTwice(fs: FileSystem, archive: Path, base: Path, first: ArchiveReading, second: ArchiveReading)
    returns (one: Outcome<Option<Path>>, two: Outcome<Option<Path>>)
    requires fs.Valid()
    requires first.Unpacked? ==> TreeOk(first.tree)
    requires second.Unpacked? ==> TreeOk(second.tree)
    modifies fs
    ensures one.Value? && one.value.Some? && two.Value? && two.value.Some? ==> one.value != two.value
  {
    ghost var d1, d2;
    ghost var k;
    one, d1, k := ExtractArchive(fs, archive, base, first);
    two, d2, k := ExtractArchive(fs, archive, base, second);
  }

  // ---------------------------------------------------------------------
  // Routing

  /** The regular music files among `candidates`. */
  function MusicFiles(m: map<Path, Node>, candidates: set<Path>): set<Path> {
    set q | q in candidates && IsFile(m, q) && IsMusicFile(q)
  }

  /** Those of them that pass the quick check. */
  function PassingFiles(m: map<Path, Node>, candidates: set<Path>, quick: Path -> ProbeRun): set<Path> {
    set q | q in MusicFiles(m, candidates) && PassesQuickCheck(quick(q))
  }

  /** The entries of `listing` that `keep` holds for, in order. */
  function Kept(listing: seq<Path>, keep: Path -> bool): seq<Path> {
    if listing == [] then []
    else
      var p := listing[|listing| - 1];
      Kept(listing[..|listing| - 1], keep) + if keep(p) then [p] else []
  }

  /** The loop hands a regular music file to the quick check. */
  function ToQuickCheck(m: map<Path, Node>): Path -> bool {
    p => IsFile(m, p) && IsMusicFile(p)
  }

  /** The loop hands a regular music file that passes the quick check to organize. */
  function ToOrganize(m: map<Path, Node>, quick: Path -> ProbeRun): Path -> bool {
    p => IsFile(m, p) && IsMusicFile(p) && PassesQuickCheck(quick(p))
  }

  /** A filtered listing holds a path as often as the listing does, if it is kept at all. */
  lemma {:induction false} KeptCount(listing: seq<Path>, keep: Path -> bool, p: Path)
    ensures multiset(Kept(listing, keep))[p] == if keep(p) then multiset(listing)[p] else 0
  {
    if listing != [] {
      var init := listing[..|listing| - 1];
      assert listing == init + [listing[|listing| - 1]];
      KeptCount(init, keep, p);
    }
  }

  /**
   * Over a listing that holds every entry once, every regular music file
   * is quick-checked exactly once and every one that passes is organized
   * exactly once; nothing else is handed on.
   */
  lemma RoutedOnce(m: map<Path, Node>, listing: seq<Path>, entries: set<Path>, quick: Path -> ProbeRun)
    requires multiset(listing) == multiset(entries)
    ensures multiset(Kept(listing, ToQuickCheck(m))) == multiset(MusicFiles(m, entries))
    ensures multiset(Kept(listing, ToOrganize(m, quick))) == multiset(PassingFiles(m, entries, quick))
  {
    forall p
      ensures multiset(Kept(listing, ToQuickCheck(m)))[p] == multiset(MusicFiles(m, entries))[p]
      ensures multiset(Kept(listing, ToOrganize(m, quick)))[p] == multiset(PassingFiles(m, entries, quick))[p]
    {
      KeptCount(listing, ToQuickCheck(m), p);
      KeptCount(listing, ToOrganize(m, quick), p);
    }
  }

  /** The order `rglob` yields a set of entries in: any order, each entry once. */
  method Enumerate(entries: set<Path>) returns (listing: seq<Path>)
    ensures multiset(listing) == multiset(entries)
  {
    listing := [];
    var todo := entries;
    while todo != {}
      invariant multiset(listing) + multiset(todo) == multiset(entries)
      decreases |todo|
    {
      var path :| path in todo;
      assert multiset(todo) == multiset(todo - {path}) + multiset{path} by {
        assert todo == (todo - {path}) + {path};
      }
      listing := listing + [path];
      todo := todo - {path};
    }
  }

  /**
   * The loop of `ingest_file` over the unpacked entries in `listing`
   * order: each regular music file is quick-checked, and those that pass
   * are organized.
   */
  method RouteExtracted(m: map<Path, Node>, listing: seq<Path>, quick: Path -> ProbeRun)
    returns (probed: seq<Path>, organized: seq<Path>)
    ensures probed == Kept(listing, ToQuickCheck(m))
    ensures organized == Kept(listing, ToOrganize(m, quick))
  {
    probed, organized := [], [];
    for i := 0 to |listing|
      invariant probed == Kept(listing[..i], ToQuickCheck(m))
      invariant organized == Kept(listing[..i], ToOrganize(m, quick))
    {
      var path := listing[i];
      assert listing[..i + 1][..i] == listing[..i];
      if IsFile(m, path) && IsMusicFile(path) {
        var pass := DoesMusicPassQuickCheck(quick(path));
        probed := probed + [path];
        if pass {
          organized := organized + [path];
        }
      }
    }
    assert listing[..|listing|] == listing;
  }

  /** `IngestionService`, holding the workspace directory archives are unpacked in. */
  class IngestionService {
    const workspaceDir: Path

    constructor (workspaceDir: Path)
      ensures this.workspaceDir == workspaceDir
    {
      this.workspaceDir := workspaceDir;
    }

    /**
     * `ingest_file`. `quick` gives the quick probe's run for a path; the
     * paths handed to the quick check and to organize come back in
     * `probed` and `organized`. For an archive, `dir` is the directory
     * it was unpacked in.
     */
    method IngestFile(fs: FileSystem, file: Path, reading: ArchiveReading, quick: Path -> ProbeRun)
      returns (r: Outcome<bool>, probed: seq<Path>, organized: seq<Path>, ghost dir: Path, ghost k: nat)
      requires fs.Valid()
      requires reading.Unpacked? ==> TreeOk(reading.tree)
      modifies fs
      ensures fs.Valid()
      ensures !IsArchive(file) ==> fs.entries == old(fs.entries) && r.Value?
      ensures !IsArchive(file) && !IsMusicFile(file) ==>
        r == Value(false) && probed == [] && organized == []
      ensures !IsArchive(file) && IsMusicFile(file) ==>
        && probed == [file]
        && r == Value(PassesQuickCheck(quick(file)))
        && organized == (if PassesQuickCheck(quick(file)) then [file] else [])
      ensures IsArchive(file) && r.Raised? ==>
        fs.entries == old(fs.entries) && probed == [] && organized == []
      ensures IsArchive(file) ==>
        var first := Join(workspaceDir, ExtractDirName(file));
        && (forall j :: 0 <= j < k ==> Renamed(first, j) in old(fs.entries))
        && (r.Raised? ==>
              || (first == [] && r.error == ValueError)
              || (&& first != [] && r.error == NotADirectoryError
                  && Renamed(first, k) !in old(fs.entries) && BlockedByFile(old(fs.entries), Renamed(first, k))))
        && (r.Value? ==> dir == Renamed(first, k))
      ensures IsArchive(file) && r.Value? ==>
        && r.value == reading.Unpacked?
        && dir != [] && dir !in old(fs.entries)
        && IsPrefix(Parent(Join(workspaceDir, ExtractDirName(file))), dir)
      ensures IsArchive(file) && reading.Unreadable? ==> probed == [] && organized == []
      ensures IsArchive(file) && reading.Unreadable? && r.Value? ==>
        r == Value(false) && fs.entries == WithoutTree(WithDirs(old(fs.entries), dir), dir)
      ensures IsArchive(file) && r == Value(true) ==>
        && fs.entries == Placed(WithDirs(old(fs.entries), dir), dir, reading.tree)
        && multiset(probed) == multiset(MusicFiles(fs.entries, Descendants(fs.entries, dir)))
        && multiset(organized) == multiset(PassingFiles(fs.entries, Descendants(fs.entries, dir), quick))
    {
      probed, organized := [], [];
      dir, k := [], 0;
      if IsArchive(file) {
        var extracted;
        extracted, dir, k := ExtractArchive(fs, file, workspaceDir, reading);
        if extracted.Raised? {
          return Raised(extracted.error), [], [], dir, k;
        }
        ghost var first := Join(workspaceDir, ExtractDirName(file));
        assert IsPrefix(Parent(first), dir) by {
          RenamedName(first, k);
          assert dir[..|Parent(first)|] == Parent(first);
        }
        if extracted.value.None? {
          return Value(false), [], [], dir, k;
        }
        var extractDir := extracted.value.value;
        var listing := Enumerate(Descendants(fs.entries, extractDir));
        probed, organized := RouteExtracted(fs.entries, listing, quick);
        RoutedOnce(fs.entries, listing, Descendants(fs.entries, extractDir), quick);
        return Value(true), probed, organized, dir, k;
      }
      if !IsMusicFile(file) {
        return Value(false), [], [], dir, k;
      }
      probed := [file];
      var pass := DoesMusicPassQuickCheck(quick(file));
      if !pass {
        return Value(false), probed, [], dir, k;
      }
      organized := [file];
      return Value(true), probed, organized, dir, k;
    }
  }
}
