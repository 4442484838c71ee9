# Ingest core of open-streaming-music-library, in Dafny

This project models the ingest side of the music library backend. That
side does four things:

- It decides whether a dropped file is a music file or an archive.
- It unpacks an archive into a fresh directory named after the archive's
  name up to its first dot, below the workspace. When that name is taken,
  "_1" is appended until it is free. A name that starts with a dot (such
  as ".zip") has an empty stem, so the first candidate is the workspace
  itself; when the workspace exists, the archive lands in the sibling
  directory `<workspace>_1`. A quick ffprobe check then runs on every
  music file found.
- It builds a `TrackMetaData` record from ffprobe's JSON.
- The organizer moves an accepted file into
  `library/artist/album`. It then hands a `Track` to the database
  callback.

Modules, one per source file or concern:

| module | file | models |
|---|---|---|
| `PyValues` | py_values.dfy | decoded JSON values, Python exceptions as `Outcome`, `dict.get`, truthiness |
| `PyText` | py_text.dfy | `str.strip`, `split(sep)[0]`, ASCII `lower`/`upper`, `int()` and `float()` of text, `str()` |
| `MediaTypes` | media_types.dfy | the audio and archive extension sets |
| `Paths` | paths.dfy | pathlib paths as component sequences: `name`, `parent`, `suffix`, `/` |
| `Files` | files.dfy | the filesystem as a map from path to `File(content)` or `Dir`, and the `mkdir`, `rmtree` and `os.replace` calls |
| `TrackModel` | track_meta_data.dfy | `TrackMetaData`, its defaults, `is_empty`, and the `Track` record |
| `Metadata` | metadata.dfy | `build_track_metadata`, `get_track_metadata`, `_parse_year`, `_parse_track_number` |
| `Ingestion` | ingestion.dfy | `is_music_file`, `is_archive`, the quick check, `handle_extract_path`, `extract_archive`, `IngestionService.ingest_file` |
| `Organizer` | organizer.dfy | `OrganizerContext`, `Organizer.organize_file`, `move_file` |

Each part takes the form the source has:

- Code that computes a value is a function:
  - the tag parsers;
  - the classification predicates;
  - the destination rule.
- Code that loops is a method with that loop and its invariants:
  - the stream loop of `build_track_metadata`;
  - the quick check's scan;
  - the routing loop of `ingest_file`.
- Code that changes the filesystem is a method that updates an instance of
  the class `Files.FileSystem`:
  - `handle_extract_path` and `extract_archive`;
  - `ingest_file`;
  - `move_file` and `organize_file`.
- Each such method is proved against a specification function, and the
  properties are proved about that function as lemmas.

External effects become inputs or recorded traces:

- The ffprobe runs are inputs. The metadata probe is the decoded JSON,
  with JNull when the probe failed. The quick probe is a `ProbeRun`.
- The archive reader's outcome is an input `ArchiveReading`: either the
  archive could not be read, or it yields the tree of files and
  directories it unpacks.
- `IngestFile` returns, in order, the files it hands to the quick check
  and to organize.
- `Organizer` keeps the `Track`s passed to `add_to_database` in its
  `added` field.

## Model

| member | source | states |
|---|---|---|
| PyValues.ItemsForGet | backend/app/services/metadata.py:57-63 | iterating `streams` visits exactly a list's elements; an empty dict or string yields nothing; a non-empty dict or string raises AttributeError at the first `.get`; None, a bool or an int raises TypeError |
| PyText.IntOfTextRoundTrip | backend/app/services/metadata.py:121 | `int(str(n)) == n` for every integer n |
| PyText.DecimalOfNatText | backend/app/services/metadata.py:82-83 | `float(str(n)) == n` for every natural n, as for ffprobe's decimal `bit_rate` text |
| MediaTypes.AudioExtensionsAreSingleSuffixes | backend/app/core/media_types.py:3-8 | every audio extension is a dot followed by dot-free text, so `Path.suffix` can equal it |
| Paths.JoinPlainName | backend/app/services/organizer.py:55-57 | joining a slash-free, non-empty, non-"." name appends exactly that one component |
| Files.FileSystem.Mkdir | backend/app/services/ingestion.py:107 | `mkdir(parents=True)`: FileExistsError on an existing path unless it is a directory and `exist_ok` is set, NotADirectoryError below a file; otherwise the missing directories are created and nothing else changes |
| Files.FileSystem.RemoveTree | backend/app/services/ingestion.py:145 | `rmtree` removes the directory and everything below it and keeps the tree valid |
| Files.FileSystem.Replace | backend/app/services/organizer.py:96 | `os.replace` moves a regular file into an existing directory and keeps the tree valid |
| Files.FreshDirIsEmpty | backend/app/services/ingestion.py:107 | a directory created where nothing was has nothing below it |
| TrackModel.DefaultIsEmpty | backend/app/models/track_meta_data.py:6-32 | a default record has no codec and zero duration, bitrate, sample rate and channels, so it is empty |
| TrackModel.EmptyIffDefaultAudio | backend/app/models/track_meta_data.py:25-32 | a record is empty exactly when its five audio fields equal the defaults |
| TrackModel.EmptinessIgnoresTags | backend/app/models/track_meta_data.py:25-32 | two records with the same audio fields agree on emptiness, whatever their tags and album-art flag |
| TrackModel.OneAudioFieldSuffices | backend/app/models/track_meta_data.py:25-32 | setting any one audio field away from its default makes a record non-empty |
| Metadata.StringTagParses | backend/app/services/metadata.py:116-121 | a string tag starting with a digit parses to the integer value of its text before the separator |
| Metadata.LeadingNumberParses | backend/app/services/metadata.py:107-142 | "n-rest" gives year n and "n/rest" gives track n, and so does the bare number |
| Metadata.NonNumericTagGivesNone | backend/app/services/metadata.py:118-123 | a tag starting with a character that is not blank, digit, sign or separator parses to None |
| Metadata.ParseLeadingIntCases | backend/app/services/metadata.py:112-119 | None, blank strings, lists and dicts give None; an int (or bool) comes back unchanged |
| Metadata.NonNumericExamples | backend/app/services/metadata.py:107-142 | "not-a-year" is no year and "A/12" no track number |
| Metadata.LastAudioIndex | backend/app/services/metadata.py:62-66 | the index of the last audio stream, -1 when there is none |
| Metadata.ScanStep | backend/app/services/metadata.py:62-70 | one more stream changes the kept audio stream only if it is audio, and the album-art flag only if it is a non-audio stream with an attached picture |
| Metadata.BuildTrackMetadata | backend/app/services/metadata.py:53-104 | the stream loop and the field assignments return or raise exactly what `BuildResult` describes |
| Metadata.GetTrackMetadata | backend/app/services/metadata.py:9-18 | None for a failed probe or a None build; exceptions propagate; the exception `build_track_metadata` raised is raised unchanged; a built record is returned unchanged, and any record returned is non-empty and is the built one |
| Metadata.BuildRejectsNullAndEmpty | backend/app/services/metadata.py:54-55 | None and `{}` both build to None |
| Metadata.NoAudioStreamGivesNone | backend/app/services/metadata.py:62-73 | a document without an audio stream builds to None, whatever its tags |
| Metadata.LastAudioStreamSupplies | backend/app/services/metadata.py:62-87 | a built record takes codec, duration, bitrate, sample rate and channels from the last audio stream; the album-art flag holds iff some non-audio stream shows an attached picture; the record is non-empty |
| Metadata.BuiltRecordTags | backend/app/services/metadata.py:92-102 | a built record's title, artist, album, album artist, date, genre and disc are the format tags (None when missing); its year is the parsed "date" and its track number the parsed "track" |
| Metadata.AudioRecordFields | backend/app/services/metadata.py:75-87 | each audio field of the record is the conversion of the matching stream field, bitrate times 1000 being `bit_rate` |
| Metadata.BitrateIsPerThousand | backend/app/services/metadata.py:83 | a `bit_rate` of b, as a number or as decimal text, gives b / 1000 kbit/s |
| Metadata.AudioDispositionIgnored | backend/app/services/metadata.py:62-70 | replacing an audio stream by any other audio stream changes neither the album-art flag nor which stream is last |
| Metadata.LastAudioIndexUnique | backend/app/services/metadata.py:62-66 | the last-audio index is the only index that is audio with no audio stream after it |
| Metadata.TagsCannotRescueEmptyAudio | backend/app/services/metadata.py:89-102 | an empty audio record gives None before any tag is read, so replacing the tags, even by a non-dict, keeps None |
| Ingestion.MusicFileIff | backend/app/services/ingestion.py:46-47 | a path is a music file iff its lower-cased name ends with an audio extension that leaves at least one character before it |
| Ingestion.EndingGivesSuffix | backend/app/services/ingestion.py:47 | a name whose lower-cased form ends with a single-suffix extension has that extension as lower-cased `suffix` |
| Ingestion.LowerSuffix | backend/app/services/ingestion.py:47 | lower-casing the suffix is taking the suffix of the lower-cased name |
| Ingestion.MusicFileIgnoresCase | backend/app/services/ingestion.py:46-47 | upper- or lower-casing a name does not change whether it is a music file |
| Ingestion.UndottedNameIsNotMusic | backend/app/services/ingestion.py:46-47 | a name without a dot, or whose only dot is the first character, is not a music file |
| Ingestion.ArchiveUnderPrefix | backend/app/services/ingestion.py:49-53 | an archive name stays an archive name with any prefix and in any directory |
| Ingestion.ZipIsArchive | backend/app/services/ingestion.py:49-53 | any name ending in ".zip" or ".ZIP" is an archive |
| Ingestion.DottedZipIsArchive | backend/app/services/ingestion.py:50-53 | "my.album.v1.zip" is an archive |
| Ingestion.MultiDotArchiveStem | backend/app/services/ingestion.py:115 | "backup.2025.12.tar.gz" is unpacked into `base/backup` |
| Ingestion.GzIsNotArchive | backend/app/services/ingestion.py:49-53 | "archive.gz" is not an archive |
| Ingestion.PlainNameIsNotArchive | backend/app/services/ingestion.py:49-53 | "archive" is not an archive |
| Ingestion.DoesMusicPassQuickCheck | backend/app/services/ingestion.py:84-102 | the scan returns true exactly when the probe exited 0 with a JSON object whose `streams` is a list holding an audio stream object |
| Ingestion.QuickCheckCases | backend/app/services/ingestion.py:78-102 | a missing tool, an OS error, a non-zero exit, undecodable or non-object output, missing, null or empty streams, and streams with no audio object all fail; non-object entries are skipped |
| Ingestion.ExtractDirName | backend/app/services/ingestion.py:115 | the extraction name is dot-free: either the whole name, or the text before its first dot |
| Ingestion.ExtractDirStem | backend/app/services/ingestion.py:115 | "stem.rest" is unpacked into `base/stem`; a name starting with a dot makes the first candidate the workspace itself |
| Ingestion.RenamedName | backend/app/services/ingestion.py:105-111 | the k-th candidate is the requested name with "_1" appended k times, in the same directory |
| Ingestion.TakenShrinks | backend/app/services/ingestion.py:108-110 | each rename strictly shrinks the set of existing siblings it could still collide with, so the recursion ends |
| Ingestion.HandleExtractPath | backend/app/services/ingestion.py:105-111 | the result is the first free candidate in the "_1" sequence; every earlier one existed; the result did not exist and is now a directory, with nothing else changed; a file in the way raises NotADirectoryError and changes nothing |
| Ingestion.EarlierCandidates | backend/app/services/ingestion.py:108-110 | the candidates skipped after one rename plus the taken first one are all the candidates skipped |
| Ingestion.PlacedValid | backend/app/services/ingestion.py:117-139 | writing the archive's tree into the fresh directory keeps the filesystem valid and every earlier entry |
| Ingestion.PlacedDescendants | backend/app/services/ingestion.py:25 | after unpacking, what `rglob` finds below the directory is exactly the archive's tree |
| Ingestion.ExtractArchive | backend/app/services/ingestion.py:114-147 | the archive is unpacked into the first free candidate of the "_1" renaming, every earlier candidate having existed; it raises only ValueError for a root path or NotADirectoryError when a file blocks the candidate, changing nothing; an unreadable archive leaves only the removal of that directory and gives None |
| Ingestion.ExtractTwice | backend/app/services/ingestion.py:105-115 | extracting twice yields two different directories |
| Ingestion.KeptCount | backend/app/services/ingestion.py:25-35 | filtering a listing keeps each kept path as often as the listing holds it and drops the rest |
| Ingestion.RoutedOnce | backend/app/services/ingestion.py:25-35 | over a listing of the extracted entries, the quick check sees each regular music file once, and organize each one that also passes |
| Ingestion.Enumerate | backend/app/services/ingestion.py:25 | the walk lists every entry below the directory exactly once |
| Ingestion.RouteExtracted | backend/app/services/ingestion.py:25-35 | the loop's two traces are the listing filtered by the two routing conditions, in order |
| Ingestion.IngestionService.IngestFile | backend/app/services/ingestion.py:18-44 | the archive test comes first; an archive raises only as extracting it does (a file blocking the free candidate), and otherwise returns a value; a non-music file gives false with no probe and no organize; a music file is probed once and organized iff it passes; an unreadable archive gives false, organizes nothing and leaves the tree as it was apart from the removal of the extraction directory; an unpacked one gives true and organizes exactly its passing music files |
| Organizer.NewOrganizerContext | backend/app/services/organizer.py:26-31 | ValueError exactly when not organizing but copying; every constructed context has organize or not copy |
| Organizer.DestinationRule | backend/app/services/organizer.py:52-57 | a falsy artist gives the library whatever the album is; with plain-name tags, library/artist/album when both are set and library/artist with only an artist |
| Organizer.DestinationInsideLibrary | backend/app/services/organizer.py:52-57 | tags that do not start with "/" keep the destination inside the library |
| Organizer.AbsoluteArtistLeavesLibrary | backend/app/services/organizer.py:54-55 | an artist tag "/x" with no album sends the file to the top-level directory "/x", outside the library |
| Organizer.MoveResultFrame | backend/app/services/organizer.py:93-97 | after a move the destination holds the source's content and the source is gone; other entries are unchanged; only the destination and parent directories are new |
| Organizer.MoveFile | backend/app/services/organizer.py:79-100 | the move happens iff the source is a regular file, the destination is absent and its parent can be made a directory; otherwise nothing changes |
| Organizer.Plan | backend/app/services/organizer.py:38-61 | NotImplementedError when not organizing or when copying; an error reading the metadata or joining the tags propagates; None for no or empty metadata; a record with a joinable destination always gives the placement of the record, the destination directory and the destination path of the file's name |
| Organizer.PlanKeepsName | backend/app/services/organizer.py:61 | the destination is the destination directory plus the file's own name |
| Organizer.Organizer.OrganizeFile | backend/app/services/organizer.py:38-76 | errors come before any effect; a failing `mkdir` of the destination raises FileExistsError when the path exists as a file and NotADirectoryError when a file blocks it; no or empty metadata returns false, changing and adding nothing; after a successful move exactly one `Track(destination, metadata, None)` is added and true returned; a failed move returns false and adds nothing |

## Left out

- The database layer, the HTTP API and the file watcher are not part of
  this model. The database is only a stub, and `add_to_database`
  appears here as the `added` trace.
- The subprocess runs of ffprobe are inputs. Both outcomes are inputs:
  the decoded metadata JSON, and the quick probe's `ProbeRun`.
- Reading the archive with libarchive, and its path-traversal check, are
  inputs: the archive either yields a tree of files and directories or
  cannot be read. Symlinks and `Path.resolve` are not modelled.
- `float()` of text is exact arithmetic on reals. It covers a sign,
  digits, a decimal point and an exponent. It does not cover `inf`,
  `nan`, underscores or binary rounding.
- `str()` of a list or dict is not modelled. It gives the empty string
  for a codec name of that shape.
- Lower-casing and digits are ASCII only. No non-ASCII character lowers
  to a letter of a media extension, so the classification agrees with
  Python's.
- Whitespace for `strip()` is Python's set of single-character
  whitespace.
- Path joining treats ".." as an ordinary component, as pathlib does
  without `resolve()`. The filesystem model does not resolve ".." either:
  it stores entries under their literal paths.
- DestinationInsideLibrary holds for the path pathlib computes, not for
  the place on disk. An artist or album tag ".." is kept as a component
  named "..", so the model creates `library/..` as a new directory. On a
  real filesystem that path is the library's parent, so such a tag moves
  the file out of the library.
- JSON numbers with a fraction or an exponent are not part of the `Json`
  datatype. ffprobe prints fractional quantities such as `duration` as
  strings, and those strings are parsed by the model of `float()`.
- `os.replace` failing for permissions or across filesystems is not
  modelled. A move that passes the checks always succeeds.
- Ingestion.IngestionService.IngestFile:
  - The listing of the extracted directory is taken once, before the
    loop. The effects of the organize callback on the tree during the
    walk are not modelled: each file's classification is read on the
    tree as unpacked.
  - The order of the walk is not modelled.
  - The organize step is a recorded callback. `ingestion.py` imports a
    module-level `organize_file` that `organizer.py` does not define, so
    the two are not wired together.
- Organizer.Organizer.OrganizeFile: the decoded probe output is an input
  independent of the filesystem, so the model admits a successful probe
  of a file that does not exist, after which the destination directories
  are created before the move fails. A real ffprobe run fails on a missing
  file, so `organize_file` returns false there without creating anything.
- Organizer.Organizer.OrganizeFile: the value `add_to_database` returns
  is ignored, as in the source.
- Ingestion.ArchiveUnderPrefix states one direction only: a prefix keeps
  an archive an archive. Removing a prefix can turn one into a
  non-archive.
