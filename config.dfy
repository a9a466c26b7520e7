/** The service's settings and the two values derived from them: the list
    of accepted file extensions and the upload size limit in bytes. */
module Config {
  import opened Strings

  /** The two audio settings (`max_audio_size_mb`, `allowed_audio_formats`). */
  datatype Settings = Settings(maxAudioSizeMb: int, allowedAudioFormats: string)

  /** The defaults used when the environment sets neither. */
  const DefaultSettings := Settings(10, ".wav,.mp3")

  const BytesPerMegabyte := 1024 * 1024

  /** `allowed_formats_list`: the setting split on ',' with every piece
      whitespace-stripped, in order. There is one entry per comma plus one,
      so the list is never empty, and no entry holds a comma or surrounding
      whitespace. Entries keep their case. */
  function AllowedFormatsList(s: Settings): (formats: seq<string>)
    ensures |formats| == Count(s.allowedAudioFormats, ',') + 1
    ensures forall k :: 0 <= k < |formats| ==> ',' !in formats[k] && IsStripped(formats[k])
  {
    var pieces := Split(s.allowedAudioFormats, ',');
    seq(|pieces|, k requires 0 <= k < |pieces| => StripPiece(pieces[k], ','))
  }

  /** Stripping a piece that holds no `sep` gives a string without `sep`. */
  function StripPiece(piece: string, sep: char): (r: string)
    requires sep !in piece
    ensures sep !in r && IsStripped(r)
  {
    StripKeepsAbsent(piece, sep);
    Strip(piece)
  }

  /** Writing the entries out comma-separated and reading them back gives
      each entry stripped, in the original order. */
  lemma {:induction false} AllowedFormatsOfJoin(mb: int, entries: seq<string>)
    requires |entries| >= 1
    requires forall k :: 0 <= k < |entries| ==> ',' !in entries[k]
    ensures var formats := AllowedFormatsList(Settings(mb, Join(entries, ",")));
            |formats| == |entries|
            && forall k :: 0 <= k < |entries| ==> formats[k] == Strip(entries[k])
  {
    SplitJoin(entries, ',');
  }

  /** Entries that are already stripped come back exactly as written. */
  lemma AllowedFormatsOfStrippedJoin(mb: int, entries: seq<string>)
    requires |entries| >= 1
    requires forall k :: 0 <= k < |entries| ==> ',' !in entries[k] && IsStripped(entries[k])
    ensures AllowedFormatsList(Settings(mb, Join(entries, ","))) == entries
  {
    AllowedFormatsOfJoin(mb, entries);
    var formats := AllowedFormatsList(Settings(mb, Join(entries, ",")));
    forall k | 0 <= k < |entries| ensures formats[k] == entries[k] {
      StripStripped(entries[k]);
    }
  }

  /** With the default setting the list is exactly [".wav", ".mp3"]. */
  lemma DefaultFormats()
    ensures AllowedFormatsList(DefaultSettings) == [".wav", ".mp3"]
  {
    var entries := [".wav", ".mp3"];
    assert entries[1..] == [".mp3"];
    assert Join(entries, ",") == ".wav,.mp3";
    AllowedFormatsOfStrippedJoin(10, entries);
  }

  /** An empty piece between two commas survives as an empty entry. */
  lemma EmptySegmentSurvives()
    ensures AllowedFormatsList(Settings(10, ".wav,,.mp3")) == [".wav", "", ".mp3"]
  {
    var entries := [".wav", "", ".mp3"];
    assert entries[1..] == ["", ".mp3"];
    assert entries[1..][1..] == [".mp3"];
    assert Join(entries, ",") == ".wav,,.mp3";
    AllowedFormatsOfStrippedJoin(10, entries);
  }

  /** `max_audio_size_bytes`: the megabyte setting in bytes. The megabyte
      count can be read back from it exactly, and a non-negative setting
      gives a non-negative limit. */
  function MaxAudioSizeBytes(s: Settings): (bytes: int)
    ensures bytes % BytesPerMegabyte == 0 && bytes / BytesPerMegabyte == s.maxAudioSizeMb
    ensures s.maxAudioSizeMb >= 0 ==> bytes >= 0
  {
    s.maxAudioSizeMb * 1024 * 1024
  }

  /** A larger megabyte setting never gives a smaller byte limit. */
  lemma MaxAudioSizeBytesMonotone(a: Settings, b: Settings)
    requires a.maxAudioSizeMb <= b.maxAudioSizeMb
    ensures MaxAudioSizeBytes(a) <= MaxAudioSizeBytes(b)
  {
  }

  /** The default limit is 10 MB, i.e. 10485760 bytes. */
  lemma DefaultMaxAudioSize()
    ensures MaxAudioSizeBytes(DefaultSettings) == 10485760
  {
  }
}
