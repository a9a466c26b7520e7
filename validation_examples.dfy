/** The validation outcomes that the API tests expect under the default
    settings (".wav,.mp3", 10 MB), stated for any plain file stem and
    derived from the general definitions. */
module ValidationExamples {
  import opened Strings
  import opened Http
  import opened Config
  import opened AudioUtils

  /** The extension of a plain stem followed by ".wav" is ".wav". */
  lemma WavExtension(base: string)
    requires PlainStem(base)
    ensures FileExtension(base + ".wav") == ".wav"
  {
    SuffixOfPlainName(base, ".wav");
    assert Lower(".wav") == ".wav";
  }

  /** The extension of a plain stem followed by ".txt" is ".txt". */
  lemma TxtExtension(base: string)
    requires PlainStem(base)
    ensures FileExtension(base + ".txt") == ".txt"
  {
    SuffixOfPlainName(base, ".txt");
    assert Lower(".txt") == ".txt";
  }

  /** A ".txt" file is refused with the format error whatever its size. */
  lemma DefaultRejectsText(base: string, size: nat)
    requires PlainStem(base)
    ensures ValidationError(DefaultSettings, base + ".txt", size) == Some(FormatError(DefaultSettings))
  {
    TextNotAllowedByDefault(base);
    FormatCheckedFirst(DefaultSettings, base + ".txt", size);
  }

  /** ".txt" is not among the default extensions. */
  lemma TextNotAllowedByDefault(base: string)
    requires PlainStem(base)
    ensures FileExtension(base + ".txt") !in AllowedFormatsList(DefaultSettings)
  {
    DefaultFormats();
    TxtExtension(base);
    TextNotListed(FileExtension(base + ".txt"), AllowedFormatsList(DefaultSettings));
  }

  lemma TextNotListed(ext: string, formats: seq<string>)
    requires ext == ".txt" && formats == [".wav", ".mp3"]
    ensures ext !in formats
  {
  }

  /** An empty ".wav" file is refused as empty. */
  lemma DefaultRejectsEmptyWav(base: string)
    requires PlainStem(base)
    ensures ValidationError(DefaultSettings, base + ".wav", 0) == Some(EmptyFileError)
  {
    DefaultFormats();
    WavExtension(base);
  }

  /** A ".wav" file over 10485760 bytes (the 20 MB upload of the tests) is
      refused as too large. */
  lemma DefaultRejectsLargeWav(base: string, size: nat)
    requires PlainStem(base)
    requires size > 10 * 1024 * 1024
    ensures ValidationError(DefaultSettings, base + ".wav", size) == Some(TooLargeError(DefaultSettings))
  {
    DefaultFormats();
    WavExtension(base);
  }

  /** A ".wav" file of 1 to 10485760 bytes passes. */
  lemma DefaultAcceptsWav(base: string, size: nat)
    requires PlainStem(base)
    requires 0 < size <= 10 * 1024 * 1024
    ensures ValidationError(DefaultSettings, base + ".wav", size).None?
  {
    DefaultFormats();
    WavExtension(base);
  }
}
