/** Temporary-file helpers of the indexer: naming, writing and cleanup. */
module TempFiles {
  import opened Wrappers
  import opened PosixPath
  import opened NodeFs

  datatype TempFileInfo = TempFileInfo(tempFilePath: string, displayName: string)

  /** `createTempFilePath`: `<dir>/<name>_<suffix>.<extension>` beside the original. */
  function CreateTempFilePath(originalPath: string, suffix: string, extension: string): (info: TempFileInfo)
    ensures info.displayName == Stem(BaseName(originalPath)) + "_" + suffix + "." + extension
    ensures |info.displayName| <= |info.tempFilePath|
    ensures info.tempFilePath[|info.tempFilePath| - |info.displayName|..] == info.displayName
  {
    var fileName := BaseName(originalPath);
    var baseName := Stem(fileName);
    var tempFileName := baseName + "_" + suffix + "." + extension;
    var tempFilePath := Join(DirName(originalPath), tempFileName);
    JoinEndsWithName(DirName(originalPath), tempFileName);
    TempFileInfo(tempFilePath, tempFileName)
  }

  /** A suffix and an extension that keep the temporary name a single segment. */
  predicate PlainNameParts(suffix: string, extension: string)
  {
    '/' !in suffix && '/' !in extension && '.' !in extension
  }

  /** The stem of a file name is a prefix of it, so it has no separator either. */
  lemma StemIsPlain(fileName: string)
    requires '/' !in fileName
    ensures '/' !in Stem(fileName)
  {
    var i := LastIndexOf(fileName, '.');
    if !(i <= 0 || fileName == "..") {
      assert forall c :: c in fileName[..i] ==> c in fileName;
    }
  }

  /**
    Reading the temporary name back with `path.parse` yields the original
    name's stem followed by `_<suffix>`; there is no separator in it.
  */
  lemma TempFileNameParts(originalPath: string, suffix: string, extension: string)
    requires PlainNameParts(suffix, extension)
    ensures var info := CreateTempFilePath(originalPath, suffix, extension);
      && PlainName(info.displayName)
      && Stem(info.displayName) == Stem(BaseName(originalPath)) + "_" + suffix
      && info.displayName[|info.displayName| - |extension| - 1..] == "." + extension
  {
    StemIsPlain(BaseName(originalPath));
    TempNameParts(Stem(BaseName(originalPath)), suffix, extension);
  }

  /** `<base>_<suffix>.<extension>` is one segment whose stem is `<base>_<suffix>`. */
  lemma TempNameParts(base: string, suffix: string, extension: string)
    requires '/' !in base && PlainNameParts(suffix, extension)
    ensures var name := base + "_" + suffix + "." + extension;
      && PlainName(name)
      && Stem(name) == base + "_" + suffix
      && name[|name| - |extension| - 1..] == "." + extension
  {
    var stem := base + "_" + suffix;
    assert stem[|base|] == '_';
    assert '/' !in stem;
    StemOfDotted(stem, extension);
    var name := stem + "." + extension;
    assert name[|name| - |extension| - 1..] == "." + extension;
  }

  /**
    The display name is the last segment of the temporary path, and the
    temporary path sits in the directory of the original: `dirname` of both
    names the same directory up to trailing separators, and is the very same
    string when the original path has no empty segments.
  */
  lemma TempPathLocation(originalPath: string, suffix: string, extension: string)
    requires PlainNameParts(suffix, extension)
    ensures var info := CreateTempFilePath(originalPath, suffix, extension);
      && BaseName(info.tempFilePath) == info.displayName
      && TrimTrailingSlashes(DirName(info.tempFilePath)) == TrimTrailingSlashes(DirName(originalPath))
      && (NoEmptySegments(originalPath) ==> DirName(info.tempFilePath) == DirName(originalPath))
  {
    var info := CreateTempFilePath(originalPath, suffix, extension);
    TempFileNameParts(originalPath, suffix, extension);
    JoinBaseName(DirName(originalPath), info.displayName);
    DirOfJoin(DirName(originalPath), info.displayName);
    if NoEmptySegments(originalPath) {
      DirNameCanonical(originalPath);
      JoinDirName(DirName(originalPath), info.displayName);
    }
  }

  /** The temporary path never names the original file, so writing or deleting it leaves the original alone. */
  lemma TempPathIsFresh(originalPath: string, suffix: string, extension: string)
    requires PlainNameParts(suffix, extension)
    ensures CreateTempFilePath(originalPath, suffix, extension).tempFilePath != originalPath
  {
    var info := CreateTempFilePath(originalPath, suffix, extension);
    TempPathLocation(originalPath, suffix, extension);
    TempFileNameParts(originalPath, suffix, extension);
    var b := BaseName(originalPath);
    assert |Stem(info.displayName)| > |Stem(b)|;
    assert info.displayName != b;
  }

  /** The file system after `cleanupTempFile(tempFilePath)`. */
  function Cleaned(files: map<string, Bytes>, tempFilePath: Option<string>): (r: map<string, Bytes>)
    ensures tempFilePath.None? || tempFilePath == Some("") ==> r == files
    ensures tempFilePath.Some? && tempFilePath.value != "" ==>
      r.Keys == files.Keys - {tempFilePath.value}
    ensures forall q :: q in r ==> q in files && r[q] == files[q]
  {
    if tempFilePath.Some? && tempFilePath.value != "" && tempFilePath.value in files
    then files - {tempFilePath.value}
    else files
  }

  /** Cleaning up twice is cleaning up once. */
  lemma CleanupIdempotent(files: map<string, Bytes>, tempFilePath: Option<string>)
    ensures Cleaned(Cleaned(files, tempFilePath), tempFilePath) == Cleaned(files, tempFilePath)
  {
  }

  /**
    `cleanupTempFile`: deletes the file when a non-empty path is given and the
    file exists; a missing path or a file already gone is no error.
  */
  method CleanupTempFile(fs: FileSystem, tempFilePath: Option<string>)
    modifies fs
    ensures fs.files == Cleaned(old(fs.files), tempFilePath)
  {
    if tempFilePath.Some? && tempFilePath.value != "" {
      var present := fs.ExistsSync(tempFilePath.value);
      if present {
        var _ := fs.UnlinkSync(tempFilePath.value);
      }
    }
  }

  /** `writeTempFile`: `filePath` now holds `content`; nothing else changes. */
  method WriteTempFile(fs: FileSystem, filePath: string, content: Bytes)
    modifies fs
    ensures fs.files == old(fs.files)[filePath := content]
  {
    fs.WriteFileSync(filePath, content);
  }
}
