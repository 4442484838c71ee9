/**
 * The metadata record of one audio file and the track record that pairs
 * it with the file's location in the library.
 *
 * The record is a pydantic model whose attribute assignments are not
 * validated, so the ingest code stores the tag values of the probe output
 * as they are: the tag fields hold decoded JSON values, JNull being None.
 */
module TrackModel {
  import opened PyValues
  import opened Paths

  datatype TrackMetaData = TrackMetaData(
    title: Json,
    artist: Json,
    album: Json,
    albumArtist: Json,
    year: Option<int>,
    date: Json,
    genre: Json,
    trackNumber: Option<int>,
    discNumber: Json,
    codec: Option<string>,
    duration: real,
    bitrateKbps: real,
    sampleRateHz: int,
    channels: int,
    hasAlbumArt: bool)

  /** `TrackMetaData()`: every optional field None, every number zero, no album art. */
  const Default: TrackMetaData := TrackMetaData(
    JNull, JNull, JNull, JNull, None, JNull, JNull, None, JNull,
    None, 0.0, 0.0, 0, 0, false)

  /** `is_empty()`: nothing was learnt about the audio itself. */
  predicate IsEmpty(md: TrackMetaData) {
    && md.codec == None
    && md.duration == 0.0
    && md.bitrateKbps == 0.0
    && md.sampleRateHz == 0
    && md.channels == 0
  }

  /** The audio-derived part of a record, the only part emptiness looks at. */
  function AudioPart(md: TrackMetaData): (Option<string>, real, real, int, int) {
    (md.codec, md.duration, md.bitrateKbps, md.sampleRateHz, md.channels)
  }

  /** A freshly constructed record is empty. */
  lemma DefaultIsEmpty()
    ensures IsEmpty(Default)
    ensures AudioPart(Default) == (None, 0.0, 0.0, 0, 0)
  {
  }

  /**
   * Emptiness is decided by the audio fields alone: two records that agree
   * on them agree on emptiness, whatever their tags and album-art flag.
   */
  lemma EmptinessIgnoresTags(a: TrackMetaData, b: TrackMetaData)
    requires AudioPart(a) == AudioPart(b)
    ensures IsEmpty(a) <==> IsEmpty(b)
  {
  }

  /** A record is empty exactly when its audio part is the default's. */
  lemma EmptyIffDefaultAudio(md: TrackMetaData)
    ensures IsEmpty(md) <==> AudioPart(md) == AudioPart(Default)
  {
  }

  /** Setting any one audio field away from its default makes the record non-empty. */
  lemma OneAudioFieldSuffices(md: TrackMetaData, codec: string, x: real, n: int)
    requires x != 0.0 && n != 0
    ensures !IsEmpty(md.(codec := Some(codec)))
    ensures !IsEmpty(md.(duration := x))
    ensures !IsEmpty(md.(bitrateKbps := x))
    ensures !IsEmpty(md.(sampleRateHz := n))
    ensures !IsEmpty(md.(channels := n))
  {
  }

  /** `Track`: where a file lives in the library and what it holds. */
  datatype Track = Track(filePath: Path, metadata: TrackMetaData, fileHash: Option<string>)
}
