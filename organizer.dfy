/**
 * The organize step: where a probed file goes in the music library, the
 * guarded move that puts it there, and the database callback that follows
 * a successful move.
 *
 * The probe output of the file is an input value, the filesystem is a
 * `FileSystem`, and the calls to `add_to_database` are recorded, in
 * order, in the organizer's `added` trace.
 */
module Organizer {
  import opened PyValues
  import opened PyText
  import opened Paths
  import opened Files
  import opened TrackModel
  import opened Metadata

  // ---------------------------------------------------------------------
  // The context

  /** `OrganizerContext` without its callback, which the `added` trace stands for. */
  datatype OrganizerContext = OrganizerContext(
    musicLibraryDir: Path,
    shouldOrganizeFiles: bool,
    shouldCopyFiles: bool)

  /** Files that stay where they are cannot be copied. */
  predicate ContextOk(ctx: OrganizerContext) {
    ctx.shouldOrganizeFiles || !ctx.shouldCopyFiles
  }

  /** Constructing an `OrganizerContext`, with the check of `__post_init__`. */
  function NewOrganizerContext(lib: Path, organize: bool, copy: bool): (r: Outcome<OrganizerContext>)
    ensures r.Raised? <==> !organize && copy
    ensures r.Raised? ==> r.error == ValueError
    ensures r.Value? ==> ContextOk(r.value)
    ensures r.Value? ==>
      && r.value.musicLibraryDir == lib
      && r.value.shouldOrganizeFiles == organize
      && r.value.shouldCopyFiles == copy
  {
    if !organize && copy then Raised(ValueError) else Value(OrganizerContext(lib, organize, copy))
  }

  // ---------------------------------------------------------------------
  // The destination

  /**
   * The library, then the artist below it when the artist is truthy, then
   * the album below that when the album is truthy too. A truthy tag that
   * is not a string cannot be joined to a path (TypeError).
   */
  function DestinationDir(lib: Path, md: TrackMetaData): Outcome<Path> {
    if !Truthy(md.artist) then Value(lib)
    else if !md.artist.JStr? then Raised(TypeError)
    else
      var withArtist := Join(lib, md.artist.s);
      if !Truthy(md.album) then Value(withArtist)
      else if !md.album.JStr? then Raised(TypeError)
      else Value(Join(withArtist, md.album.s))
  }

  /** A tag that is missing, None or empty, or a string that names one directory. */
  predicate IsPlainTag(v: Json) {
    !Truthy(v) || (v.JStr? && IsPlainName(v.s))
  }

  /**
   * The three-way rule: library/artist/album when both are set,
   * library/artist when only the artist is, the library otherwise; an
   * album without an artist is ignored.
   */
  lemma DestinationRule(lib: Path, md: TrackMetaData)
    ensures !Truthy(md.artist) ==> DestinationDir(lib, md) == Value(lib)
    ensures Truthy(md.artist) && IsPlainTag(md.artist) && !Truthy(md.album) ==>
      DestinationDir(lib, md) == Value(lib + [md.artist.s])
    ensures Truthy(md.artist) && IsPlainTag(md.artist) && Truthy(md.album) && IsPlainTag(md.album) ==>
      DestinationDir(lib, md) == Value(lib + [md.artist.s, md.album.s])
  {
    if Truthy(md.artist) && IsPlainTag(md.artist) && IsPlainTag(md.album) {
      JoinPlainName(lib, md.artist.s);
      if Truthy(md.album) {
        JoinPlainName(lib + [md.artist.s], md.album.s);
        assert lib + [md.artist.s] + [md.album.s] == lib + [md.artist.s, md.album.s];
      }
    }
  }

  /** Tags that do not start with a slash keep the destination inside the library. */
  lemma DestinationInsideLibrary(lib: Path, md: TrackMetaData)
    requires DestinationDir(lib, md).Value?
    requires md.artist.JStr? ==> md.artist.s == [] || md.artist.s[0] != '/'
    requires md.album.JStr? ==> md.album.s == [] || md.album.s[0] != '/'
    ensures IsPrefix(lib, DestinationDir(lib, md).value)
  {
    if Truthy(md.artist) {
      var withArtist := Join(lib, md.artist.s);
      assert withArtist[..|lib|] == lib;
      if Truthy(md.album) {
        assert Join(withArtist, md.album.s)[..|withArtist|] == withArtist;
        assert Join(withArtist, md.album.s)[..|lib|] == withArtist[..|lib|];
      }
    }
  }

  /**
   * An artist tag that starts with a slash is an absolute path to
   * pathlib, which then drops the library: the file lands outside it.
   */
  lemma AbsoluteArtistLeavesLibrary(lib: Path, md: TrackMetaData, name: string)
    requires IsPlainName(name) && md.artist == JStr("/" + name) && !Truthy(md.album)
    ensures DestinationDir(lib, md) == Value([name])
  {
    var s := "/" + name;
    assert BeforeFirst(s, '/') == "";
    assert s[1..] == name;
    assert |BeforeFirst(name, '/')| == |name|;
    assert Split(name, '/') == [name];
    assert Split(s, '/') == ["", name];
    assert Parts(["", name]) == Parts([name]) == [name];
    assert s != [] && s[0] == '/';
    assert Join(lib, s) == [name];
    assert Truthy(md.artist) && md.artist.s == s;
  }

  // ---------------------------------------------------------------------
  // Moving a file

  /**
   * `move_file` moves: the source is a regular file, the destination does
   * not exist, and its parent is a directory or can be made one.
   */
  predicate MoveAllowed(m: map<Path, Node>, src: Path, dst: Path) {
    IsFile(m, src) && dst !in m && MkdirSucceeds(m, Parent(dst), true)
  }

  /** The entries after a move: missing parents created, then the file renamed. */
  function MoveResult(m: map<Path, Node>, src: Path, dst: Path): map<Path, Node>
    requires IsFile(m, src)
  {
    Replaced(WithDirs(m, Parent(dst)), src, dst)
  }

  /**
   * After a move the destination holds the source's content and the source
   * is gone; every other entry is unchanged, and every new entry is the
   * destination or a directory on the way to it.
   */
  lemma MoveResultFrame(m: map<Path, Node>, src: Path, dst: Path)
    requires ValidTree(m) && MoveAllowed(m, src, dst)
    ensures dst != [] && dst != src
    ensures dst in MoveResult(m, src, dst) && MoveResult(m, src, dst)[dst] == m[src]
    ensures src !in MoveResult(m, src, dst)
    ensures forall q :: q in m && q != src ==> q in MoveResult(m, src, dst) && MoveResult(m, src, dst)[q] == m[q]
    ensures forall q :: q in MoveResult(m, src, dst) && q !in m ==>
      q == dst || (IsPrefix(q, Parent(dst)) && MoveResult(m, src, dst)[q] == Dir)
  {
    assert dst != [];
    var w := WithDirs(m, Parent(dst));
    if Parent(dst) !in m {
      WithDirsValid(m, Parent(dst));
    }
    assert src in w && src != Parent(dst);
    forall q | q in w && q !in m ensures IsPrefix(q, Parent(dst)) && w[q] == Dir {
      var k :| 0 <= k <= |Parent(dst)| && q == Parent(dst)[..k];
    }
  }

  /**
   * `move_file`. The failures `os.replace` can meet on a real system
   * (permissions, another filesystem) are not part of this model.
   */
  method MoveFile(fs: FileSystem, src: Path, dst: Path) returns (moved: bool)
    requires fs.Valid()
    modifies fs
    ensures fs.Valid()
    ensures moved <==> MoveAllowed(old(fs.entries), src, dst)
    ensures !moved ==> fs.entries == old(fs.entries)
    ensures moved ==> fs.entries == MoveResult(old(fs.entries), src, dst)
  {
    if !IsFile(fs.entries, src) {
      return false;
    }
    if dst in fs.entries {
      return false;
    }
    var parent := Parent(dst);
    if parent in fs.entries && fs.entries[parent] != Dir {
      return false;
    }
    var made := fs.Mkdir(parent, true);
    if made.Raised? {
      return false;
    }
    assert dst != [] && parent in fs.entries;
    assert dst !in fs.entries by {
      assert dst !in Prefixes(parent);
    }
    fs.Replace(src, dst);
    return true;
  }

  // ---------------------------------------------------------------------
  // Organizing a file

  /** Where a file with record `md` goes: its directory and its full path. */
  datatype Placement = Placement(md: TrackMetaData, dir: Path, dst: Path)

  /**
   * The decisions `organize_file` takes before touching the filesystem:
   * it refuses in-place organizing and copying, reads the metadata (a
   * file without a record is skipped), and computes the destination.
   */
  function Plan(ctx: OrganizerContext, file: Path, probed: Json): (r: Outcome<Option<Placement>>)
    ensures !ctx.shouldOrganizeFiles || ctx.shouldCopyFiles ==> r == Raised(NotImplementedError)
    ensures ctx.shouldOrganizeFiles && !ctx.shouldCopyFiles && GetTrackMetadata(probed) == Value(None) ==>
      r == Value(None)
    ensures ctx.shouldOrganizeFiles && !ctx.shouldCopyFiles && GetTrackMetadata(probed).Raised? ==>
      r == Raised(GetTrackMetadata(probed).error)
    ensures (ctx.shouldOrganizeFiles && !ctx.shouldCopyFiles
             && GetTrackMetadata(probed).Value? && GetTrackMetadata(probed).value.Some?) ==>
      var md := GetTrackMetadata(probed).value.value;
      var dest := DestinationDir(ctx.musicLibraryDir, md);
      && (dest.Raised? ==> r == Raised(dest.error))
      && (dest.Value? ==> r == Value(Some(Placement(md, dest.value, Join(dest.value, Name(file))))))
    ensures r.Value? && r.value.Some? ==>
      && GetTrackMetadata(probed) == Value(Some(r.value.value.md))
      && !IsEmpty(r.value.value.md)
      && DestinationDir(ctx.musicLibraryDir, r.value.value.md) == Value(r.value.value.dir)
      && r.value.value.dst == Join(r.value.value.dir, Name(file))
  {
    if !ctx.shouldOrganizeFiles || ctx.shouldCopyFiles then Raised(NotImplementedError)
    else
      var meta :- GetTrackMetadata(probed);
      if meta.None? || IsEmpty(meta.value) then Value(None)
      else
        var dir :- DestinationDir(ctx.musicLibraryDir, meta.value);
        Value(Some(Placement(meta.value, dir, Join(dir, Name(file)))))
  }

  /** A file with a plain name keeps its name in the library, right below its directory. */
  lemma PlanKeepsName(ctx: OrganizerContext, file: Path, probed: Json)
    requires Plan(ctx, file, probed).Value? && Plan(ctx, file, probed).value.Some?
    requires IsPlainName(Name(file))
    ensures var pl := Plan(ctx, file, probed).value.value;
      pl.dst == pl.dir + [Name(file)] && Name(pl.dst) == Name(file) && Parent(pl.dst) == pl.dir
  {
    var pl := Plan(ctx, file, probed).value.value;
    JoinPlainName(pl.dir, Name(file));
    assert (pl.dir + [Name(file)])[..|pl.dir|] == pl.dir;
  }

  /** `Organizer`, with the calls it made to `add_to_database`. */
  class Organizer {
    const ctx: OrganizerContext
    var added: seq<Track>

    constructor (ctx: OrganizerContext)
      ensures this.ctx == ctx && added == []
    {
      this.ctx := ctx;
      added := [];
    }

    /**
     * `organize_file` for a file whose probe printed `probed` (JNull when
     * the probe failed). The destination directory is made first, and an
     * error from that propagates; then the file is moved, and only a move
     * that happened is reported to the database, once.
     */
    method OrganizeFile(fs: FileSystem, file: Path, probed: Json) returns (r: Outcome<bool>)
      requires fs.Valid()
      modifies this, fs
      ensures fs.Valid()
      ensures Plan(ctx, file, probed).Raised? ==>
        r == Raised(Plan(ctx, file, probed).error) && fs.entries == old(fs.entries) && added == old(added)
      ensures Plan(ctx, file, probed) == Value(None) ==>
        r == Value(false) && fs.entries == old(fs.entries) && added == old(added)
      ensures Plan(ctx, file, probed).Value? && Plan(ctx, file, probed).value.Some? ==>
        var pl := Plan(ctx, file, probed).value.value;
        var made := WithDirs(old(fs.entries), pl.dir);
        && (!MkdirSucceeds(old(fs.entries), pl.dir, true) ==>
              && r == Raised(if pl.dir in old(fs.entries) then FileExistsError else NotADirectoryError)
              && fs.entries == old(fs.entries) && added == old(added))
        && (MkdirSucceeds(old(fs.entries), pl.dir, true) && !MoveAllowed(made, file, pl.dst) ==>
              r == Value(false) && fs.entries == made && added == old(added))
        && (MkdirSucceeds(old(fs.entries), pl.dir, true) && MoveAllowed(made, file, pl.dst) ==>
              && r == Value(true) && fs.entries == MoveResult(made, file, pl.dst)
              && added == old(added) + [Track(pl.dst, pl.md, None)])
      ensures r == Value(true) <==> |added| == |old(added)| + 1
      ensures r != Value(true) ==> added == old(added)
    {
      if !ctx.shouldOrganizeFiles {
        return Raised(NotImplementedError);
      }
      if ctx.shouldCopyFiles {
        return Raised(NotImplementedError);
      }
      var meta :- GetTrackMetadata(probed);
      if meta.None? || IsEmpty(meta.value) {
        return Value(false);
      }
      var md := meta.value;
      var destinationDir :- DestinationDir(ctx.musicLibraryDir, md);
      var made := fs.Mkdir(destinationDir, true);
      if made.Raised? {
        return Raised(made.error);
      }
      var destinationPath := Join(destinationDir, Name(file));
      var moved := MoveFile(fs, file, destinationPath);
      if !moved {
        return Value(false);
      }
      added := added + [Track(destinationPath, md, None)];
      return Value(true);
    }
  }
}
