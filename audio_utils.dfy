/** Upload validation and the temporary-file lifecycle: the extension and
    size checks run on an upload before any work, the upload saved under a
    fresh name that keeps its extension, and the idempotent removal of that
    file. The upload stream is an object with a read position; the file
    system is a map from existing paths to their bytes. */
module AudioUtils {
  import opened Strings
  import opened Http
  import opened Config

  newtype byte = b: int | 0 <= b < 256

  /** pathlib's `PurePath(path).name`: the text after the last '/'. */
  function PathName(path: string): string
  {
    path[RFind(path, '/') + 1..]
  }

  /** The name is the tail of the path after its last '/', or the whole path. */
  lemma PathNameShape(path: string)
    ensures var name := PathName(path);
            '/' !in name && |name| <= |path| && name == path[|path| - |name|..]
            && (|name| < |path| ==> path[|path| - |name| - 1] == '/')
  {
  }

  /** pathlib's `PurePath(path).suffix`: from the last '.' of the name on,
      provided that dot is neither the name's first nor its last character;
      otherwise empty. */
  function Suffix(path: string): string
  {
    var name := PathName(path);
    var i := RFind(name, '.');
    if 0 < i < |name| - 1 then name[i..] else ""
  }

  /** The suffix is empty exactly when the name is empty, has no '.' after
      its first character, or ends in '.'; otherwise it is a '.' followed by
      at least one character and no further '.', at the end of the name and
      shorter than it. */
  lemma SuffixShape(path: string)
    ensures var name := PathName(path);
            var ext := Suffix(path);
            (ext == "" <==> |name| == 0 || '.' !in name[1..] || name[|name| - 1] == '.')
            && (ext != "" ==> 2 <= |ext| < |name| && ext == name[|name| - |ext|..]
                              && ext[0] == '.' && '.' !in ext[1..])
  {
    var name := PathName(path);
    SuffixCases(name, RFind(name, '.'));
  }

  lemma SuffixCases(name: string, i: int)
    requires -1 <= i < |name|
    requires i == -1 <==> '.' !in name
    requires 0 <= i ==> name[i] == '.' && '.' !in name[i + 1..]
    ensures (0 < i < |name| - 1) <==> !(|name| == 0 || '.' !in name[1..] || name[|name| - 1] == '.')
    ensures 0 < i < |name| - 1 ==> name[i..][1..] == name[i + 1..]
  {
    if 0 < i < |name| - 1 {
      assert name[1..][i - 1] == '.';
      assert name[i + 1..][|name| - i - 2] == name[|name| - 1];
    } else if i == 0 {
      assert name[1..] == name[i + 1..];
    } else if i == -1 && |name| > 0 {
      assert forall k :: 0 <= k < |name| - 1 ==> name[1..][k] == name[k + 1];
    }
  }

  /** A stem with no directory and no dot. */
  predicate PlainStem(base: string)
  {
    |base| > 0 && '.' !in base && '/' !in base
  }

  /** A plain stem followed by '.' and at least one character other than
      '.' and '/' has exactly that dotted ending as its suffix. */
  lemma SuffixOfPlainName(base: string, ext: string)
    requires PlainStem(base)
    requires |ext| >= 2 && ext[0] == '.' && '.' !in ext[1..] && '/' !in ext
    ensures Suffix(base + ext) == ext
  {
    var name := base + ext;
    assert forall k :: 0 <= k < |name| ==> name[k] != '/' by {
      forall k | 0 <= k < |name| ensures name[k] != '/' {
        if k < |base| { assert name[k] == base[k]; }
        else { assert name[k] == ext[k - |base|]; }
      }
    }
    assert PathName(name) == name;
    assert name[|base|] == '.';
    assert name[|base| + 1..] == ext[1..];
    assert name[|base|..] == ext;
  }

  /** The extension the validator compares: the suffix, lower-cased. */
  function FileExtension(filename: string): string
  {
    Lower(Suffix(filename))
  }

  function FormatError(settings: Settings): HttpError
  {
    HttpError(400, "Formato no permitido. Use: " + Join(AllowedFormatsList(settings), ", "))
  }

  function TooLargeError(settings: Settings): HttpError
  {
    HttpError(400, "Archivo muy grande. Máximo: " + IntToDecimal(settings.maxAudioSizeMb) + "MB")
  }

  const EmptyFileError := HttpError(400, "El archivo está vacío")

  /** What `validate_audio_file` raises for a file of this name and size:
      the format error first, then the size limit, then emptiness. A file
      passes exactly when its extension is allowed and its size is between 1
      and the byte limit, and every rejection is a 400. */
  function ValidationError(settings: Settings, filename: string, size: nat): (err: Option<HttpError>)
    ensures err.None? <==> FileExtension(filename) in AllowedFormatsList(settings)
                           && 0 < size <= MaxAudioSizeBytes(settings)
    ensures err.Some? ==> err.value.status == 400
  {
    if FileExtension(filename) !in AllowedFormatsList(settings) then Some(FormatError(settings))
    else if size > MaxAudioSizeBytes(settings) then Some(TooLargeError(settings))
    else if size == 0 then Some(EmptyFileError)
    else None
  }

  /** A bad extension is reported whatever the size, even for an empty or an
      oversized file. */
  lemma FormatCheckedFirst(settings: Settings, filename: string, size: nat)
    requires FileExtension(filename) !in AllowedFormatsList(settings)
    ensures ValidationError(settings, filename, size) == Some(FormatError(settings))
  {
  }

  /** With an allowed extension, a size above the limit is "too large", and
      that is reported before emptiness is looked at. */
  lemma TooLargeRejected(settings: Settings, filename: string, size: nat)
    requires FileExtension(filename) in AllowedFormatsList(settings)
    requires size > MaxAudioSizeBytes(settings)
    ensures ValidationError(settings, filename, size) == Some(TooLargeError(settings))
  {
  }

  /** With an allowed extension and a non-negative limit, an empty file is
      rejected as empty. */
  lemma EmptyRejected(settings: Settings, filename: string)
    requires FileExtension(filename) in AllowedFormatsList(settings)
    requires settings.maxAudioSizeMb >= 0
    ensures ValidationError(settings, filename, 0) == Some(EmptyFileError)
  {
  }

  /** A size exactly at the limit is accepted. */
  lemma SizeAtLimitAccepted(settings: Settings, filename: string)
    requires FileExtension(filename) in AllowedFormatsList(settings)
    requires settings.maxAudioSizeMb > 0
    ensures ValidationError(settings, filename, MaxAudioSizeBytes(settings)).None?
  {
  }

  /** Because the extension is lower-cased and the configured entries are
      not, an entry holding an upper-case ASCII letter can never be matched. */
  lemma {:induction false} UppercaseEntryNeverMatches(entry: string, filename: string)
    requires HasUpperAscii(entry)
    ensures FileExtension(filename) != entry
  {
  }

  /** The upload's spooled stream: its name, its bytes and a read position. */
  class UploadFile {
    const filename: string
    const content: seq<byte>
    var position: nat

    ghost predicate Valid()
      reads this
    {
      position <= |content|
    }

    constructor (filename: string, content: seq<byte>)
      ensures this.filename == filename && this.content == content
      ensures position == 0 && Valid()
    {
      this.filename := filename;
      this.content := content;
      position := 0;
    }

    /** `file.seek(0, 2)`. */
    method SeekEnd()
      modifies this
      ensures position == |content| && Valid()
    {
      position := |content|;
    }

    /** `file.seek(0)`. */
    method SeekStart()
      modifies this
      ensures position == 0 && Valid()
    {
      position := 0;
    }

    /** `file.tell()`. */
    function Tell(): nat
      reads this
    {
      position
    }

    /** `await file.read()`: the bytes from the current position to the end. */
    method Read() returns (data: seq<byte>)
      requires Valid()
      modifies this
      ensures data == content[old(position)..]
      ensures position == |content| && Valid()
    {
      data := content[position..];
      position := |content|;
    }
  }

  /** `validate_audio_file`: raises what ValidationError says. A bad
      extension is refused before the stream is touched; otherwise the size
      is measured by seeking to the end and the stream is rewound to the
      start, so the next reader sees every byte. */
  method ValidateAudioFile(file: UploadFile, settings: Settings) returns (err: Option<HttpError>)
    requires file.Valid()
    modifies file
    ensures file.Valid()
    ensures err == ValidationError(settings, file.filename, |file.content|)
    ensures FileExtension(file.filename) in AllowedFormatsList(settings) ==> file.position == 0
    ensures FileExtension(file.filename) !in AllowedFormatsList(settings) ==> file.position == old(file.position)
  {
    var fileExt := Lower(Suffix(file.filename));
    if fileExt !in AllowedFormatsList(settings) {
      return Some(FormatError(settings));
    }
    file.SeekEnd();
    var fileSize := file.Tell();
    file.SeekStart();
    if fileSize > MaxAudioSizeBytes(settings) {
      return Some(TooLargeError(settings));
    }
    if fileSize == 0 {
      return Some(EmptyFileError);
    }
    return None;
  }

  /** Where `save_temp_file` fails, if it does: before the temporary file is
      created (the directory or the file cannot be made), or after (reading
      the upload or writing the file fails). */
  datatype SaveFault = NoFault | CreateFails | WriteFails

  const SaveError := HttpError(500, "Error al procesar el archivo")

  /** The name `save_temp_file` gives the saved upload: a fresh stem (the
      temporary directory, the random name) followed by the upload's suffix
      exactly as written. */
  function TempPath(stem: string, filename: string): string
  {
    stem + Suffix(filename)
  }

  /** The file system as the set of existing paths, each with its bytes. */
  class FileSystem {
    var files: map<string, seq<byte>>

    constructor (files: map<string, seq<byte>>)
      ensures this.files == files
    {
      this.files := files;
    }

    predicate Exists(path: string)
      reads this
    {
      path in files
    }

    /** `save_temp_file`: creates a new file named `stem` followed by the
        upload's own (not lower-cased) suffix and writes to it the upload's
        bytes from the current read position on. Every failure becomes a 500
        with the same detail; a failure after creation leaves the new, empty
        file behind. */
    method SaveTempFile(file: UploadFile, stem: string, fault: SaveFault) returns (r: Result<string>)
      requires file.Valid()
      requires TempPath(stem, file.filename) !in files
      modifies this, file
      ensures file.Valid()
      ensures fault == NoFault ==>
                r == Ok(TempPath(stem, file.filename))
                && files == old(files)[TempPath(stem, file.filename) := file.content[old(file.position)..]]
                && file.position == |file.content|
      ensures fault == CreateFails ==>
                r == Err(SaveError) && files == old(files) && file.position == old(file.position)
      ensures fault == WriteFails ==>
                r == Err(SaveError) && files == old(files)[TempPath(stem, file.filename) := []]
                && file.position == |file.content|
    {
      var path := TempPath(stem, file.filename);
      if fault == CreateFails {
        return Err(SaveError);
      }
      files := files[path := []];
      var content := file.Read();
      if fault == WriteFails {
        return Err(SaveError);
      }
      ghost var created := files;
      files := files[path := content];
      assert files == old(files)[path := content] by {
        assert created == old(files)[path := []];
      }
      return Ok(path);
    }

    /** `cleanup_temp_file`: removes the path if it exists and does nothing
        otherwise; it never fails. */
    method CleanupTempFile(path: string)
      modifies this
      ensures files == AfterCleanup(old(files), path)
    {
      if path in files {
        files := files - {path};
      }
    }
  }

  /** The existing paths after `path` is cleaned up: `path` is gone and every
      other path is as it was. */
  function AfterCleanup(files: map<string, seq<byte>>, path: string): (after: map<string, seq<byte>>)
    ensures path !in after
    ensures forall p :: p != path ==> (p in after <==> p in files)
    ensures forall p :: p in after ==> after[p] == files[p]
  {
    files - {path}
  }

  /** Cleaning up a path that was just created, whatever was written to
      it, gives back the file system as it was before. */
  lemma CleanupUndoesSave(files: map<string, seq<byte>>, path: string, data: seq<byte>)
    requires path !in files
    ensures AfterCleanup(files[path := data], path) == files
  {
    assert AfterCleanup(files[path := data], path).Keys == files.Keys;
  }

  /** Cleaning up twice is cleaning up once. */
  lemma CleanupIdempotent(files: map<string, seq<byte>>, path: string)
    ensures AfterCleanup(AfterCleanup(files, path), path) == AfterCleanup(files, path)
  {
  }

  /** Cleaning up a path that does not exist changes nothing. */
  lemma CleanupAbsentIsNoop(files: map<string, seq<byte>>, path: string)
    requires path !in files
    ensures AfterCleanup(files, path) == files
  {
  }
}
