/**
 * Building a TrackMetaData from the decoded output of ffprobe: locating
 * the audio stream and the album-art flag, gating on emptiness, copying
 * the format tags, and the best-effort parsing of year and track number.
 */
module Metadata {
  import opened PyValues
  import opened PyText
  import opened TrackModel

  // ---------------------------------------------------------------------
  // Tag parsing

  /**
   * The scheme shared by `_parse_year` and `_parse_track_number`: None
   * stays None, an int (bool included) is returned as it is, another
   * non-string is dropped, a blank string is dropped, and otherwise the
   * text before the first `sep` is read with `int()`, None if that raises.
   */
  function ParseLeadingInt(v: Json, sep: char): Option<int> {
    match v
    case JNull => None
    case JBool(b) => Some(if b then 1 else 0)
    case JInt(i) => Some(i)
    case JStr(s) => if Strip(s) == "" then None else IntOfText(BeforeFirst(s, sep))
    case _ => None
  }

  /** `_parse_year`: the year of a date tag such as "2021-06-01". */
  function ParseYear(v: Json): Option<int> {
    ParseLeadingInt(v, '-')
  }

  /** `_parse_track_number`: the track of a tag such as "1/12". */
  function ParseTrackNumber(v: Json): Option<int> {
    ParseLeadingInt(v, '/')
  }

  lemma {:induction false} TrimEndKeepsLead(s: string)
    requires s != [] && !IsSpace(s[0])
    ensures TrimEnd(s) != []
  {
    if IsSpace(s[|s| - 1]) {
      assert |s| > 1;
      TrimEndKeepsLead(s[..|s| - 1]);
    }
  }

  lemma {:induction false} BeforeFirstOfPrefix(a: string, sep: char, rest: string)
    requires sep !in a
    ensures BeforeFirst(a + [sep] + rest, sep) == a
    ensures BeforeFirst(a, sep) == a
  {
    if a != [] {
      assert (a + [sep] + rest)[1..] == a[1..] + [sep] + rest;
      BeforeFirstOfPrefix(a[1..], sep, rest);
    }
  }

  lemma StripKeepsLead(s: string)
    requires s != [] && !IsSpace(s[0])
    ensures Strip(s) != ""
  {
    assert TrimStart(s) == s;
    TrimEndKeepsLead(s);
  }

  lemma DigitsHaveNo(t: string, sep: char)
    requires AllDigits(t) && !IsDigit(sep)
    ensures sep !in t
  {
  }

  /** A string tag whose text before `sep` reads as `n` parses to `n`. */
  lemma StringTagParses(s: string, sep: char, n: int)
    requires s != [] && IsDigit(s[0]) && IntOfText(BeforeFirst(s, sep)) == Some(n)
    ensures ParseLeadingInt(JStr(s), sep) == Some(n)
  {
    StripKeepsLead(s);
  }

  /**
   * A tag that starts with a number followed by the separator, or that is
   * just the number, parses to that number.
   */
  lemma LeadingNumberParses(n: nat, sep: char, rest: string)
    requires !IsDigit(sep)
    ensures ParseLeadingInt(JStr(NatText(n) + [sep] + rest), sep) == Some(n)
    ensures ParseLeadingInt(JStr(NatText(n)), sep) == Some(n)
  {
    var t := NatText(n);
    DigitsHaveNo(t, sep);
    BeforeFirstOfPrefix(t, sep, rest);
    IntOfTextRoundTrip(n);
    assert IntText(n) == t;
    assert IsDigit(t[0]);
    StringTagParses(t + [sep] + rest, sep, n);
    StringTagParses(t, sep, n);
  }

  /**
   * A tag whose first character is neither blank, a digit, a sign nor the
   * separator (the "not-a-year" and "A/12" of the tests) parses to None.
   */
  lemma {:induction false} NonNumericTagGivesNone(s: string, sep: char)
    requires s != [] && !IsSpace(s[0]) && !IsDigit(s[0])
    requires s[0] != '-' && s[0] != '+' && s[0] != sep
    ensures ParseLeadingInt(JStr(s), sep) == None
  {
    StripKeepsLead(s);
    var b := BeforeFirst(s, sep);
    assert b != [] && b[0] == s[0];
    StripKeepsLead(b);
    var t := Strip(b);
    assert TrimStart(b) == b;
    assert t[0] == b[0];
  }

  /**
   * None, a string of blanks, a list and a dict all give None; an int is
   * taken as it is, and so is a bool, which Python treats as an int.
   */
  lemma ParseLeadingIntCases(sep: char, i: int, blank: string, xs: seq<Json>, m: map<string, Json>)
    requires forall k :: 0 <= k < |blank| ==> IsSpace(blank[k])
    ensures ParseLeadingInt(JNull, sep) == None
    ensures ParseLeadingInt(JInt(i), sep) == Some(i)
    ensures ParseLeadingInt(JBool(true), sep) == Some(1) && ParseLeadingInt(JBool(false), sep) == Some(0)
    ensures ParseLeadingInt(JStr(blank), sep) == None
    ensures ParseLeadingInt(JArr(xs), sep) == None && ParseLeadingInt(JObj(m), sep) == None
  {
    BlankTrimsAway(blank);
  }

  lemma {:induction false} BlankTrimsAway(s: string)
    requires forall k :: 0 <= k < |s| ==> IsSpace(s[k])
    ensures Strip(s) == ""
  {
    if s != [] {
      BlankTrimsAway(s[1..]);
    }
  }

  /** "not-a-year" is no year and "A/12" no track number. */
  lemma NonNumericExamples()
    ensures ParseYear(JStr("not-a-year")) == None && ParseTrackNumber(JStr("A/12")) == None
  {
    NonNumericTagGivesNone("not-a-year", '-');
    NonNumericTagGivesNone("A/12", '/');
  }

  // ---------------------------------------------------------------------
  // Streams

  /** `stream.get("codec_type") == "audio"` on a dict. */
  predicate IsAudioStream(s: Json) {
    s.JObj? && GetOr(s.fields, "codec_type", JNull) == JStr("audio")
  }

  /** `stream.get("disposition", {})` */
  function DispositionOf(s: Json): Json
    requires s.JObj?
  {
    GetOr(s.fields, "disposition", JObj(map[]))
  }

  /** The stream loop can look at `s` without raising AttributeError. */
  predicate Scannable(s: Json) {
    s.JObj? && (IsAudioStream(s) || DispositionOf(s).JObj?)
  }

  predicate AllScannable(xs: seq<Json>) {
    forall i :: 0 <= i < |xs| ==> Scannable(xs[i])
  }

  /** `stream.get("disposition", {}).get("attached_pic") == 1` */
  predicate ShowsAttachedPic(s: Json) {
    s.JObj? && DispositionOf(s).JObj?
    && EqualsOne(GetOr(DispositionOf(s).fields, "attached_pic", JNull))
  }

  /** The position of the last audio stream, or -1 when there is none. */
  function LastAudioIndex(xs: seq<Json>): (k: int)
    ensures -1 <= k < |xs|
    ensures k >= 0 ==> IsAudioStream(xs[k])
    ensures forall j :: k < j < |xs| ==> !IsAudioStream(xs[j])
  {
    if xs == [] then -1
    else if IsAudioStream(xs[|xs| - 1]) then |xs| - 1
    else LastAudioIndex(xs[..|xs| - 1])
  }

  /** The stream the loop leaves in `audio_stream`. */
  function LastAudio(xs: seq<Json>): Option<Json> {
    var k := LastAudioIndex(xs);
    if k < 0 then None else Some(xs[k])
  }

  /** Some stream that is not audio carries an attached picture. */
  predicate AlbumArtIn(xs: seq<Json>) {
    exists i :: 0 <= i < |xs| && !IsAudioStream(xs[i]) && ShowsAttachedPic(xs[i])
  }

  // ---------------------------------------------------------------------
  // The record

  /** `float(stream.get(key, 0.0))` */
  function FloatField(s: map<string, Json>, key: string): Outcome<real> {
    if key in s then PyFloat(s[key]) else Value(0.0)
  }

  /** `int(stream.get(key, 0))` */
  function IntField(s: map<string, Json>, key: string): Outcome<int> {
    if key in s then PyInt(s[key]) else Value(0)
  }

  /** `str(codec_name)`, or None when the stream has none. */
  function CodecOf(s: map<string, Json>): Option<string> {
    var name := GetOr(s, "codec_name", JNull);
    if name == JNull then None else Some(PyStr(name))
  }

  /** The record built from the audio stream `s`, before any tag is read. */
  function AudioRecord(s: map<string, Json>, hasAlbumArt: bool): Outcome<TrackMetaData> {
    var duration :- FloatField(s, "duration");
    var bitRate :- FloatField(s, "bit_rate");
    var sampleRate :- IntField(s, "sample_rate");
    var channels :- IntField(s, "channels");
    Value(Default.(
      codec := CodecOf(s), duration := duration, bitrateKbps := bitRate / 1000.0,
      sampleRateHz := sampleRate, channels := channels, hasAlbumArt := hasAlbumArt))
  }

  /** The record with the format tags copied in and year and track parsed. */
  function WithTags(md: TrackMetaData, tags: Json): Outcome<TrackMetaData> {
    if !tags.JObj? then Raised(AttributeError)
    else
      var t := tags.fields;
      var date := GetOr(t, "date", JNull);
      Value(md.(
        title := GetOr(t, "title", JNull), artist := GetOr(t, "artist", JNull),
        album := GetOr(t, "album", JNull), albumArtist := GetOr(t, "album_artist", JNull),
        date := date, year := ParseYear(date), genre := GetOr(t, "genre", JNull),
        trackNumber := ParseTrackNumber(GetOr(t, "track", JNull)),
        discNumber := GetOr(t, "disc", JNull)))
  }

  /** `json_data.get("format", {}).get("tags", {})` */
  function FormatTags(j: Json): Outcome<Json> {
    var format :- Get(j, "format", JObj(map[]));
    Get(format, "tags", JObj(map[]))
  }

  /** What `build_track_metadata` returns or raises. */
  function BuildResult(j: Json): Outcome<Option<TrackMetaData>> {
    if j == JNull then Value(None)
    else if !j.JObj? then Raised(AttributeError)
    else
      var tags :- FormatTags(j);
      var xs :- ItemsForGet(GetOr(j.fields, "streams", JArr([])));
      if !AllScannable(xs) then Raised(AttributeError)
      else match LastAudio(xs)
        case None => Value(None)
        case Some(audio) =>
          var md :- AudioRecord(audio.fields, AlbumArtIn(xs));
          if IsEmpty(md) then Value(None)
          else
            var full :- WithTags(md, tags);
            Value(Some(full))
  }

  lemma ScanStep(xs: seq<Json>, i: int)
    requires 0 <= i < |xs|
    ensures xs[..i + 1][..i] == xs[..i]
    ensures AllScannable(xs[..i + 1]) <==> AllScannable(xs[..i]) && Scannable(xs[i])
    ensures LastAudio(xs[..i + 1]) == if IsAudioStream(xs[i]) then Some(xs[i]) else LastAudio(xs[..i])
    ensures AlbumArtIn(xs[..i + 1]) <==>
      AlbumArtIn(xs[..i]) || (!IsAudioStream(xs[i]) && ShowsAttachedPic(xs[i]))
  {
    var p, q := xs[..i + 1], xs[..i];
    assert p[..i] == q;
    if AlbumArtIn(p) && !(!IsAudioStream(xs[i]) && ShowsAttachedPic(xs[i])) {
      var w :| 0 <= w < |p| && !IsAudioStream(p[w]) && ShowsAttachedPic(p[w]);
      assert w < i && q[w] == p[w];
    }
    if AlbumArtIn(q) {
      var w :| 0 <= w < |q| && !IsAudioStream(q[w]) && ShowsAttachedPic(q[w]);
      assert p[w] == q[w];
    }
    if !IsAudioStream(xs[i]) && ShowsAttachedPic(xs[i]) {
      assert p[i] == xs[i];
    }
  }

  /**
   * `build_track_metadata`: the stream loop keeps the last audio stream and
   * raises the album-art flag for a non-audio stream with an attached
   * picture; the fields are then assigned one by one.
   */
  method BuildTrackMetadata(j: Json) returns (r: Outcome<Option<TrackMetaData>>)
    ensures r == BuildResult(j)
  {
    if j == JNull {
      return Value(None);
    }
    if !j.JObj? {
      return Raised(AttributeError);
    }
    var tags :- FormatTags(j);
    var streams := GetOr(j.fields, "streams", JArr([]));
    var xs :- ItemsForGet(streams);

    var audioStream: Option<Json> := None;
    var hasAlbumArt := false;
    for i := 0 to |xs|
      invariant AllScannable(xs[..i])
      invariant audioStream == LastAudio(xs[..i])
      invariant hasAlbumArt == AlbumArtIn(xs[..i])
    {
      ScanStep(xs, i);
      var stream := xs[i];
      if !stream.JObj? {
        assert !Scannable(xs[i]);
        return Raised(AttributeError);
      }
      if IsAudioStream(stream) {
        audioStream := Some(stream);
        continue;
      }
      var disposition := GetOr(stream.fields, "disposition", JObj(map[]));
      if !disposition.JObj? {
        assert !Scannable(xs[i]);
        return Raised(AttributeError);
      }
      if EqualsOne(GetOr(disposition.fields, "attached_pic", JNull)) {
        hasAlbumArt := true;
      }
    }
    assert xs[..|xs|] == xs;

    if audioStream == None {
      return Value(None);
    }
    var metadata :- AudioRecord(audioStream.value.fields, hasAlbumArt);
    if IsEmpty(metadata) {
      return Value(None);
    }
    metadata :- WithTags(metadata, tags);
    return Value(Some(metadata));
  }

  /**
   * `get_track_metadata`, given what the probe decoded (JNull when the
   * probe failed): a record comes back only when it is not empty.
   */
  function GetTrackMetadata(probed: Json): (r: Outcome<Option<TrackMetaData>>)
    ensures probed == JNull ==> r == Value(None)
    ensures BuildResult(probed) == Value(None) ==> r == Value(None)
    ensures r.Raised? <==> BuildResult(probed).Raised?
    ensures BuildResult(probed).Raised? ==> r == BuildResult(probed)
    ensures r.Value? && r.value.Some? ==> !IsEmpty(r.value.value)
    ensures r.Value? && r.value.Some? ==> BuildResult(probed) == r
    ensures BuildResult(probed).Value? && BuildResult(probed).value.Some? ==> r == BuildResult(probed)
  {
    var md :- BuildResult(probed);
    if md == None || IsEmpty(md.value) then Value(None) else Value(md)
  }

  // ---------------------------------------------------------------------
  // Properties of the built record

  /** The list the stream loop walks, for a document that gets that far. */
  function Streams(j: Json): seq<Json> {
    if j.JObj? then
      match ItemsForGet(GetOr(j.fields, "streams", JArr([])))
      case Value(xs) => xs
      case Raised(_) => []
    else []
  }

  /** None in, None out; and `{}` has no audio stream. */
  lemma BuildRejectsNullAndEmpty()
    ensures BuildResult(JNull) == Value(None)
    ensures BuildResult(JObj(map[])) == Value(None)
  {
    assert Streams(JObj(map[])) == [];
  }

  /**
   * A document whose streams can all be looked at, none of them audio,
   * gives None, whatever its tags say.
   */
  lemma NoAudioStreamGivesNone(j: Json)
    requires j.JObj? && FormatTags(j).Value?
    requires ItemsForGet(GetOr(j.fields, "streams", JArr([]))).Value?
    requires AllScannable(Streams(j))
    requires forall i :: 0 <= i < |Streams(j)| ==> !IsAudioStream(Streams(j)[i])
    ensures BuildResult(j) == Value(None)
  {
    assert LastAudioIndex(Streams(j)) == -1;
  }

  /**
   * A built record takes codec, duration, bitrate, sample rate and channel
   * count from the LAST audio stream: bitrate is `bit_rate` over 1000, and
   * the album-art flag says whether some non-audio stream has an attached
   * picture.
   */
  lemma {:induction false} LastAudioStreamSupplies(j: Json, md: TrackMetaData)
    requires BuildResult(j) == Value(Some(md))
    ensures var xs := Streams(j); var k := LastAudioIndex(xs);
      && 0 <= k < |xs| && IsAudioStream(xs[k])
      && (forall i :: k < i < |xs| ==> !IsAudioStream(xs[i]))
      && md.codec == CodecOf(xs[k].fields)
      && FloatField(xs[k].fields, "duration") == Value(md.duration)
      && FloatField(xs[k].fields, "bit_rate") == Value(md.bitrateKbps * 1000.0)
      && IntField(xs[k].fields, "sample_rate") == Value(md.sampleRateHz)
      && IntField(xs[k].fields, "channels") == Value(md.channels)
      && (md.hasAlbumArt <==>
          exists i :: 0 <= i < |xs| && !IsAudioStream(xs[i]) && ShowsAttachedPic(xs[i]))
      && !IsEmpty(md)
  {
    var xs := Streams(j);
    assert j != JNull && j.JObj?;
    var k := LastAudioIndex(xs);
    assert k >= 0;
    var rec := AudioRecord(xs[k].fields, AlbumArtIn(xs));
    assert rec.Value?;
    AudioRecordFields(xs[k].fields, AlbumArtIn(xs), rec.value);
    assert AudioPart(md) == AudioPart(rec.value);
  }

  /** Where each audio field of a record built from stream `s` comes from. */
  lemma AudioRecordFields(s: map<string, Json>, hasAlbumArt: bool, rec: TrackMetaData)
    requires AudioRecord(s, hasAlbumArt) == Value(rec)
    ensures rec.codec == CodecOf(s) && rec.hasAlbumArt == hasAlbumArt
    ensures FloatField(s, "duration") == Value(rec.duration)
    ensures FloatField(s, "bit_rate") == Value(rec.bitrateKbps * 1000.0)
    ensures IntField(s, "sample_rate") == Value(rec.sampleRateHz)
    ensures IntField(s, "channels") == Value(rec.channels)
  {
    var b := FloatField(s, "bit_rate").value;
    assert rec.bitrateKbps == b / 1000.0;
  }

  /**
   * A `bit_rate` of b, given as a number or as the decimal text ffprobe
   * prints, becomes b / 1000 kbit/s: 256000 gives 256.
   */
  lemma BitrateIsPerThousand(s: map<string, Json>, hasAlbumArt: bool, b: nat, rec: TrackMetaData)
    requires "bit_rate" in s && (s["bit_rate"] == JInt(b) || s["bit_rate"] == JStr(NatText(b)))
    requires AudioRecord(s, hasAlbumArt) == Value(rec)
    ensures rec.bitrateKbps == b as real / 1000.0
  {
    DecimalOfNatText(b);
    AudioRecordFields(s, hasAlbumArt, rec);
  }

  /**
   * A built record carries the format tags as they are (None for a
   * missing tag), with the year parsed from "date" and the track number
   * from "track".
   */
  lemma BuiltRecordTags(j: Json, md: TrackMetaData)
    requires BuildResult(j) == Value(Some(md))
    ensures FormatTags(j).Value? && FormatTags(j).value.JObj?
    ensures var t := FormatTags(j).value.fields;
      && md.title == GetOr(t, "title", JNull)
      && md.artist == GetOr(t, "artist", JNull)
      && md.album == GetOr(t, "album", JNull)
      && md.albumArtist == GetOr(t, "album_artist", JNull)
      && md.date == GetOr(t, "date", JNull)
      && md.year == ParseYear(GetOr(t, "date", JNull))
      && md.genre == GetOr(t, "genre", JNull)
      && md.trackNumber == ParseTrackNumber(GetOr(t, "track", JNull))
      && md.discNumber == GetOr(t, "disc", JNull)
  {
    var xs := Streams(j);
    assert j.JObj?;
    var k := LastAudioIndex(xs);
    var rec := AudioRecord(xs[k].fields, AlbumArtIn(xs));
    assert WithTags(rec.value, FormatTags(j).value) == Value(md);
  }

  /** The album art flag never looks at an audio stream's own disposition. */
  lemma AudioDispositionIgnored(xs: seq<Json>, i: int, other: Json)
    requires 0 <= i < |xs| && IsAudioStream(xs[i]) && IsAudioStream(other)
    ensures AlbumArtIn(xs[i := other]) <==> AlbumArtIn(xs)
    ensures LastAudioIndex(xs[i := other]) == LastAudioIndex(xs)
  {
    var ys := xs[i := other];
    assert forall w :: 0 <= w < |xs| ==> (IsAudioStream(ys[w]) <==> IsAudioStream(xs[w]));
    if AlbumArtIn(xs) {
      var w :| 0 <= w < |xs| && !IsAudioStream(xs[w]) && ShowsAttachedPic(xs[w]);
      assert ys[w] == xs[w];
    }
    if AlbumArtIn(ys) {
      var w :| 0 <= w < |ys| && !IsAudioStream(ys[w]) && ShowsAttachedPic(ys[w]);
      assert xs[w] == ys[w];
    }
    LastAudioIndexUnique(ys, LastAudioIndex(xs));
  }

  /** The index `LastAudioIndex` finds is the only one with its two properties. */
  lemma LastAudioIndexUnique(xs: seq<Json>, k: int)
    requires -1 <= k < |xs| && (k >= 0 ==> IsAudioStream(xs[k]))
    requires forall j :: k < j < |xs| ==> !IsAudioStream(xs[j])
    ensures LastAudioIndex(xs) == k
  {
  }

  /** The document with its format tags replaced by `tags`. */
  function WithFormatTags(j: Json, tags: Json): Json
    requires j.JObj? && Get(j, "format", JObj(map[])).Value?
    requires Get(j, "format", JObj(map[])).value.JObj?
  {
    var format := Get(j, "format", JObj(map[])).value;
    JObj(j.fields["format" := JObj(format.fields["tags" := tags])])
  }

  /**
   * An audio stream that yields an empty record gives None, and the check
   * comes before any tag is read: no tags, even ones that are not a dict,
   * change that.
   */
  lemma TagsCannotRescueEmptyAudio(j: Json, tags: Json)
    requires j.JObj? && Get(j, "format", JObj(map[])).Value?
    requires Get(j, "format", JObj(map[])).value.JObj?
    requires ItemsForGet(GetOr(j.fields, "streams", JArr([]))).Value?
    requires AllScannable(Streams(j)) && LastAudio(Streams(j)).Some?
    requires AudioRecord(LastAudio(Streams(j)).value.fields, AlbumArtIn(Streams(j))).Value?
    requires IsEmpty(AudioRecord(LastAudio(Streams(j)).value.fields, AlbumArtIn(Streams(j))).value)
    ensures BuildResult(j) == Value(None)
    ensures BuildResult(WithFormatTags(j, tags)) == Value(None)
  {
    var j' := WithFormatTags(j, tags);
    assert GetOr(j'.fields, "streams", JArr([])) == GetOr(j.fields, "streams", JArr([]));
    assert Streams(j') == Streams(j);
  }
}
