/**
  Metadata extraction for one document: sniff the MIME type, turn a slide
  deck into a text file, upload, wait until the service has processed the
  upload, ask for the metadata and validate it. Temporary files are removed
  whatever happens after they are created.
*/
module ExtractMetadata {
  import opened Wrappers
  import opened PosixPath
  import opened NodeFs
  import opened TempFiles
  import opened MetadataSchema

  const POWERPOINT_MIME_TYPE: string :=
    "application/vnd.openxmlformats-officedocument.presentationml.presentation"
  const TEXT_MIME_TYPE: string := "text/plain"
  /** Milliseconds between two status fetches. */
  const PROCESSING_CHECK_INTERVAL: nat := 5000

  /** A state name other than the three the indexer knows; the empty name stands for no state. */
  type OtherName = s: string | s != "PROCESSING" && s != "FAILED" && s != "ACTIVE"

  /** The `state` that `ai.files.get` reports; `OtherState` covers every other value. */
  datatype FileState = Processing | Active | Failed | OtherState(name: OtherName)

  /** The outcome of one `ai.files.get` call: a reported state, or a throw. */
  datatype StatusReply = Reported(state: FileState) | FetchFailed

  /** The service's handle for an uploaded file. */
  datatype RemoteFile = RemoteFile(name: string, uri: string, mimeType: Option<string>)

  /** The argument of `ai.files.upload`, with the temporary file it owns. */
  datatype UploadConfig = UploadConfig(
    file: string,
    tempFilePath: Option<string>,
    displayName: string,
    mimeType: Option<string>)

  /** The calls to the remote service, and the waits between them, in the order they happen. */
  datatype Event = Upload(config: UploadConfig) | GetStatus(name: string) | Sleep(ms: nat) | Generate(file: RemoteFile)

  /**
    The libraries and the remote service, as functions of what they are given;
    `None` stands for a throw, except that `sniff` is `fileTypeFromBuffer(..)?.mime`
    and gives `None` for a type it does not recognise;
    `parseOffice` is officeparser, `encodeText` is how `writeFileSync` stores
    a string, `generate` is the text of `ai.models.generateContent`, and
    `parseJson` is `JSON.parse`.
  */
  datatype Services = Services(
    sniff: Bytes -> Option<string>,
    parseOffice: Bytes -> Option<string>,
    encodeText: string -> Bytes,
    upload: UploadConfig -> Option<RemoteFile>,
    generate: RemoteFile -> Option<string>,
    parseJson: string -> Option<Json>)

  datatype Error =
    | ReadFailed(path: string)
    | UnsupportedFileType(path: string)
    | TextExtractionFailed
    | UploadFailed
    | FileProcessingFailed
    | StatusFetchFailed
    | GenerationFailed
    | InvalidJson(text: string)
    | SchemaValidationFailed(issue: SchemaError)

  // ---------------------------------------------------------------------
  // Waiting for processing

  /** The service eventually answers with something other than PROCESSING: another state, or a throw. */
  predicate Settles(replies: seq<StatusReply>)
  {
    exists i :: 0 <= i < |replies| && replies[i] != Reported(Processing)
  }

  lemma SettlesTail(replies: seq<StatusReply>)
    requires Settles(replies) && replies[0] == Reported(Processing)
    ensures Settles(replies[1..])
  {
    var i :| 0 <= i < |replies| && replies[i] != Reported(Processing);
    assert replies[1..][i - 1] != Reported(Processing);
  }

  /** The number of PROCESSING reports before the first other answer. */
  function FirstSettled(replies: seq<StatusReply>): (k: nat)
    requires Settles(replies)
    ensures k < |replies| && replies[k] != Reported(Processing)
    ensures forall j :: 0 <= j < k ==> replies[j] == Reported(Processing)
  {
    if replies[0] != Reported(Processing) then 0
    else
      SettlesTail(replies);
      1 + FirstSettled(replies[1..])
  }

  /** A first fetch, then a sleep and a fetch for each of `k` PROCESSING reports. */
  function PollTrace(fileName: string, k: nat): seq<Event>
  {
    if k == 0 then [GetStatus(fileName)]
    else PollTrace(fileName, k - 1) + [Sleep(PROCESSING_CHECK_INTERVAL), GetStatus(fileName)]
  }

  /** Fetches sit at even positions and sleeps of the interval at odd positions. */
  lemma {:induction false} PollTraceShape(fileName: string, k: nat)
    ensures |PollTrace(fileName, k)| == 2 * k + 1
    ensures forall i :: 0 <= i < 2 * k + 1 ==>
      PollTrace(fileName, k)[i] == if i % 2 == 0 then GetStatus(fileName) else Sleep(PROCESSING_CHECK_INTERVAL)
  {
    if k > 0 {
      PollTraceShape(fileName, k - 1);
    }
  }

  function Sleeps(trace: seq<Event>): nat
  {
    if trace == [] then 0 else Sleeps(trace[..|trace| - 1]) + (if trace[|trace| - 1].Sleep? then 1 else 0)
  }

  function Fetches(trace: seq<Event>): nat
  {
    if trace == [] then 0 else Fetches(trace[..|trace| - 1]) + (if trace[|trace| - 1].GetStatus? then 1 else 0)
  }

  /** `k` PROCESSING reports cost exactly `k` sleeps and `k + 1` fetches. */
  lemma {:induction false} PollCounts(fileName: string, k: nat)
    ensures Sleeps(PollTrace(fileName, k)) == k
    ensures Fetches(PollTrace(fileName, k)) == k + 1
  {
    if k > 0 {
      PollCounts(fileName, k - 1);
      var t := PollTrace(fileName, k);
      var prev := PollTrace(fileName, k - 1);
      assert t[..|t| - 1] == prev + [Sleep(PROCESSING_CHECK_INTERVAL)];
      assert (prev + [Sleep(PROCESSING_CHECK_INTERVAL)])[..|prev|] == prev;
    }
  }

  /**
    `waitForFileProcessing`: re-fetch every interval while PROCESSING, throw on
    FAILED; a fetch that throws ends the wait with that error.
  */
  method WaitForFileProcessing(fileName: string, replies: seq<StatusReply>) returns (r: Outcome<Error>, trace: seq<Event>)
    requires Settles(replies)
    ensures var k := FirstSettled(replies);
      && trace == PollTrace(fileName, k)
      && (r.Fail? <==> replies[k] == Reported(Failed) || replies[k] == FetchFailed)
      && (r.Fail? ==> r.error == if replies[k] == FetchFailed then StatusFetchFailed else FileProcessingFailed)
  {
    var polls := 0;
    var fileStatus := replies[polls];
    trace := [GetStatus(fileName)];
    while fileStatus == Reported(Processing)
      invariant 0 <= polls <= FirstSettled(replies)
      invariant fileStatus == replies[polls]
      invariant trace == PollTrace(fileName, polls)
      decreases FirstSettled(replies) - polls
    {
      trace := trace + [Sleep(PROCESSING_CHECK_INTERVAL)];
      polls := polls + 1;
      fileStatus := replies[polls];
      trace := trace + [GetStatus(fileName)];
    }
    if fileStatus == FetchFailed {
      return Fail(StatusFetchFailed), trace;
    }
    if fileStatus == Reported(Failed) {
      return Fail(FileProcessingFailed), trace;
    }
    return Pass, trace;
  }

  /** Two PROCESSING reports before ACTIVE: two sleeps, three fetches, a normal return. */
  lemma PollExample(fileName: string)
    ensures var replies := [Reported(Processing), Reported(Processing), Reported(Active)];
      && Settles(replies)
      && FirstSettled(replies) == 2
      && Sleeps(PollTrace(fileName, FirstSettled(replies))) == 2
      && Fetches(PollTrace(fileName, FirstSettled(replies))) == 3
  {
    var replies := [Reported(Processing), Reported(Processing), Reported(Active)];
    assert replies[2] != Reported(Processing);
    assert replies[1..] == [Reported(Processing), Reported(Active)];
    assert replies[1..][1..] == [Reported(Active)];
    PollCounts(fileName, 2);
  }

  // ---------------------------------------------------------------------
  // Upload configuration

  /** The text file `extractTextFromPowerPoint` writes: `<dir>/<stem>_extracted.txt`. */
  function ExtractedTextPath(filePath: string): string
  {
    var fileName := BaseName(filePath);
    var baseName := Stem(fileName);
    var tempFileName := baseName + "_extracted.txt";
    Join(DirName(filePath), tempFileName)
  }

  /** The text path is the temporary path `createTempFilePath` would build for suffix `extracted` and extension `txt`. */
  lemma ExtractedTextPathIsTempPath(filePath: string)
    ensures ExtractedTextPath(filePath) == CreateTempFilePath(filePath, "extracted", "txt").tempFilePath
    ensures ExtractedTextPath(filePath) != filePath && ExtractedTextPath(filePath) != ""
    ensures BaseName(ExtractedTextPath(filePath)) == Stem(BaseName(filePath)) + "_extracted.txt"
  {
    var stem := Stem(BaseName(filePath));
    assert stem + "_" + "extracted" + "." + "txt" == stem + "_extracted.txt";
    TempPathIsFresh(filePath, "extracted", "txt");
    TempPathLocation(filePath, "extracted", "txt");
  }

  /** What `createUploadConfig` returns once the text file of a slide deck exists. */
  function PlannedUploadConfig(filePath: string, mimeType: string): UploadConfig
  {
    if mimeType == POWERPOINT_MIME_TYPE then
      var tempFilePath := ExtractedTextPath(filePath);
      UploadConfig(tempFilePath, Some(tempFilePath), BaseName(tempFilePath), Some(TEXT_MIME_TYPE))
    else
      UploadConfig(filePath, None, BaseName(filePath), None)
  }

  /**
    A slide deck is uploaded as its extracted text, from and owning
    `<dir>/<stem>_extracted.txt`, labelled with that file name; any other file
    is uploaded from its own path under its base name, with no MIME type and
    no temporary file.
  */
  lemma UploadConfigShape(filePath: string, mimeType: string)
    ensures var c := PlannedUploadConfig(filePath, mimeType);
      if mimeType == POWERPOINT_MIME_TYPE then
        && c.tempFilePath == Some(c.file)
        && c.file == Join(DirName(filePath), Stem(BaseName(filePath)) + "_extracted.txt")
        && c.displayName == Stem(BaseName(filePath)) + "_extracted.txt"
        && c.mimeType == Some("text/plain")
        && c.file != filePath
      else
        c == UploadConfig(filePath, None, BaseName(filePath), None)
  {
    ExtractedTextPathIsTempPath(filePath);
  }

  /** What `extractTextFromPowerPoint` returns and the file system it leaves. */
  function TextExtracted(files: map<string, Bytes>, svc: Services, filePath: string)
    : (Result<string, Error>, map<string, Bytes>)
  {
    if filePath !in files then (Failure(TextExtractionFailed), files)
    else match svc.parseOffice(files[filePath])
      case None => (Failure(TextExtractionFailed), files)
      case Some(text) =>
        var tempFilePath := ExtractedTextPath(filePath);
        (Success(tempFilePath), files[tempFilePath := svc.encodeText(text)])
  }

  /** `extractTextFromPowerPoint`: returns the path of the text file it wrote. */
  method ExtractTextFromPowerPoint(fs: FileSystem, svc: Services, filePath: string) returns (r: Result<string, Error>)
    modifies fs
    ensures (r, fs.files) == TextExtracted(old(fs.files), svc, filePath)
  {
    var source := fs.ReadFileSync(filePath);
    if source.None? {
      return Failure(TextExtractionFailed);
    }
    var extractedText := svc.parseOffice(source.value);
    if extractedText.None? {
      return Failure(TextExtractionFailed);
    }
    var fileName := BaseName(filePath);
    var baseName := Stem(fileName);
    var tempFileName := baseName + "_extracted.txt";
    var tempFilePath := Join(DirName(filePath), tempFileName);
    fs.WriteFileSync(tempFilePath, svc.encodeText(extractedText.value));
    return Success(tempFilePath);
  }

  /** What `createUploadConfig` returns and the file system it leaves. */
  function ConfigCreated(files: map<string, Bytes>, svc: Services, filePath: string, mimeType: string)
    : (Result<UploadConfig, Error>, map<string, Bytes>)
  {
    if mimeType == POWERPOINT_MIME_TYPE then
      var (extracted, files') := TextExtracted(files, svc, filePath);
      match extracted
      case Failure(e) => (Failure(e), files')
      case Success(_) => (Success(PlannedUploadConfig(filePath, mimeType)), files')
    else (Success(PlannedUploadConfig(filePath, mimeType)), files)
  }

  /** `createUploadConfig`: dispatch on the sniffed MIME type. */
  method CreateUploadConfig(fs: FileSystem, svc: Services, filePath: string, mimeType: string)
    returns (r: Result<UploadConfig, Error>)
    modifies fs
    ensures (r, fs.files) == ConfigCreated(old(fs.files), svc, filePath, mimeType)
  {
    var fileName := BaseName(filePath);
    if mimeType == POWERPOINT_MIME_TYPE {
      var extracted := ExtractTextFromPowerPoint(fs, svc, filePath);
      if extracted.Failure? {
        return Failure(extracted.error);
      }
      var tempFilePath := extracted.value;
      var tempFileName := BaseName(tempFilePath);
      return Success(UploadConfig(tempFilePath, Some(tempFilePath), tempFileName, Some(TEXT_MIME_TYPE)));
    }
    return Success(UploadConfig(filePath, None, fileName, None));
  }

  // ---------------------------------------------------------------------
  // Upload

  /** What `uploadFile` returns, the remote calls it makes, and the file system it leaves. */
  function Uploaded(files: map<string, Bytes>, svc: Services, replies: seq<StatusReply>, filePath: string)
    : (Result<RemoteFile, Error>, seq<Event>, map<string, Bytes>)
    requires Settles(replies)
  {
    if filePath !in files then (Failure(ReadFailed(filePath)), [], files)
    else match svc.sniff(files[filePath])
      case None => (Failure(UnsupportedFileType(filePath)), [], files)
      case Some(mimeType) =>
        var (config, written) := ConfigCreated(files, svc, filePath, mimeType);
        match config
        case Failure(e) => (Failure(e), [], written)
        case Success(c) =>
          var cleaned := Cleaned(written, c.tempFilePath);
          match svc.upload(c)
          case None => (Failure(UploadFailed), [Upload(c)], cleaned)
          case Some(remote) =>
            var k := FirstSettled(replies);
            (match replies[k]
               case FetchFailed => Failure(StatusFetchFailed)
               case Reported(state) => if state == Failed then Failure(FileProcessingFailed) else Success(remote),
             [Upload(c)] + PollTrace(remote.name, k),
             cleaned)
  }

  /** `uploadFile`: the upload and the wait run inside `try`, the cleanup in `finally`. */
  method UploadFile(fs: FileSystem, svc: Services, replies: seq<StatusReply>, filePath: string)
    returns (r: Result<RemoteFile, Error>, trace: seq<Event>)
    requires Settles(replies)
    modifies fs
    ensures (r, trace, fs.files) == Uploaded(old(fs.files), svc, replies, filePath)
  {
    var fileBuffer := fs.ReadFileSync(filePath);
    if fileBuffer.None? {
      return Failure(ReadFailed(filePath)), [];
    }
    var fileType := svc.sniff(fileBuffer.value);
    if fileType.None? {
      return Failure(UnsupportedFileType(filePath)), [];
    }
    var uploadConfig := CreateUploadConfig(fs, svc, filePath, fileType.value);
    if uploadConfig.Failure? {
      return Failure(uploadConfig.error), [];
    }
    var config := uploadConfig.value;
    // try
    var uploadedFile := svc.upload(config);
    trace := [Upload(config)];
    if uploadedFile.None? {
      r := Failure(UploadFailed);
    } else {
      var status, polls := WaitForFileProcessing(uploadedFile.value.name, replies);
      trace := trace + polls;
      r := if status.Fail? then Failure(status.error) else Success(uploadedFile.value);
    }
    // finally
    CleanupTempFile(fs, config.tempFilePath);
  }

  /** An unrecognised type fails before any file is written or any remote call is made. */
  lemma UnsupportedTypeFailsClosed(files: map<string, Bytes>, svc: Services, replies: seq<StatusReply>, filePath: string)
    requires Settles(replies)
    requires filePath in files && svc.sniff(files[filePath]).None?
    ensures Uploaded(files, svc, replies, filePath) == (Failure(UnsupportedFileType(filePath)), [], files)
  {
  }

  /**
    Building a configuration either fails leaving the file system as it was,
    or leaves exactly the one temporary file that the configuration owns.
  */
  lemma ConfigOwnsWhatItWrites(files: map<string, Bytes>, svc: Services, filePath: string, mimeType: string)
    ensures var (config, files') := ConfigCreated(files, svc, filePath, mimeType);
      && (config.Failure? ==> files' == files)
      && (config.Success? ==>
            Cleaned(files', config.value.tempFilePath) ==
              if mimeType == POWERPOINT_MIME_TYPE then files - {ExtractedTextPath(filePath)} else files)
  {
    var created := ConfigCreated(files, svc, filePath, mimeType);
    if mimeType != POWERPOINT_MIME_TYPE {
      assert created == (Success(PlannedUploadConfig(filePath, mimeType)), files);
    } else if filePath !in files || svc.parseOffice(files[filePath]).None? {
      assert created == (Failure(TextExtractionFailed), files);
    } else {
      var path := ExtractedTextPath(filePath);
      var content := svc.encodeText(svc.parseOffice(files[filePath]).value);
      assert TextExtracted(files, svc, filePath) == (Success(path), files[path := content]);
      assert created == (Success(PlannedUploadConfig(filePath, mimeType)), files[path := content]);
      assert PlannedUploadConfig(filePath, mimeType).tempFilePath == Some(path);
      ExtractedTextPathNonEmpty(filePath);
      CleanedAfterWrite(files, path, content);
    }
  }

  lemma ExtractedTextPathNonEmpty(filePath: string)
    ensures ExtractedTextPath(filePath) != ""
  {
    JoinKeepsName(DirName(filePath), Stem(BaseName(filePath)) + "_extracted.txt");
  }

  /** Cleaning up a file just written deletes it. */
  lemma CleanedAfterWrite(files: map<string, Bytes>, path: string, content: Bytes)
    requires path != ""
    ensures Cleaned(files[path := content], Some(path)) == files - {path}
  {
  }

  /**
    Whether the upload succeeds, the service reports FAILED, or the upload
    throws, the only lasting change to the file system is that the slide
    deck's text file is gone; the source file is never touched.
  */
  lemma UploadLeavesNoTempFile(files: map<string, Bytes>, svc: Services, replies: seq<StatusReply>, filePath: string)
    requires Settles(replies)
    ensures var files' := Uploaded(files, svc, replies, filePath).2;
      && files' == (if filePath in files && svc.sniff(files[filePath]) == Some(POWERPOINT_MIME_TYPE)
                      && svc.parseOffice(files[filePath]).Some?
                    then files - {ExtractedTextPath(filePath)}
                    else files)
      && (filePath in files ==> filePath in files' && files'[filePath] == files[filePath])
  {
    var files' := Uploaded(files, svc, replies, filePath).2;
    if filePath in files && svc.sniff(files[filePath]).Some? {
      var mimeType := svc.sniff(files[filePath]).value;
      ConfigOwnsWhatItWrites(files, svc, filePath, mimeType);
      var created := ConfigCreated(files, svc, filePath, mimeType);
      if created.0.Success? {
        assert files' == Cleaned(created.1, created.0.value.tempFilePath);
      } else {
        assert files' == created.1;
      }
      ExtractedTextPathIsFresh(filePath);
    }
  }

  lemma ExtractedTextPathIsFresh(filePath: string)
    ensures ExtractedTextPath(filePath) != filePath
  {
    ExtractedTextPathIsTempPath(filePath);
  }

  /**
    An upload that returns has been processed: its last status is a state
    other than PROCESSING or FAILED, and it was fetched once more than it
    slept. FAILED is reported as "File processing failed.", and a status fetch
    that throws is passed on, each after the same polling.
  */
  lemma UploadWaitsForProcessing(files: map<string, Bytes>, svc: Services, replies: seq<StatusReply>, filePath: string)
    requires Settles(replies)
    ensures var (r, trace, _) := Uploaded(files, svc, replies, filePath);
      var k := FirstSettled(replies);
      && (r.Success? ==>
            && replies[k].Reported? && replies[k].state != Processing && replies[k].state != Failed
            && trace[0].Upload?
            && Sleeps(trace[1..]) == k && Fetches(trace[1..]) == k + 1
            && trace[1..] == PollTrace(r.value.name, k))
      && (r == Failure(FileProcessingFailed) ==>
            replies[k] == Reported(Failed) && Sleeps(trace[1..]) == k && Fetches(trace[1..]) == k + 1)
      && (r == Failure(StatusFetchFailed) ==>
            replies[k] == FetchFailed && Sleeps(trace[1..]) == k && Fetches(trace[1..]) == k + 1)
  {
    var (r, trace, _) := Uploaded(files, svc, replies, filePath);
    if r.Success? || r == Failure(FileProcessingFailed) || r == Failure(StatusFetchFailed) {
      var c := ConfigCreated(files, svc, filePath, svc.sniff(files[filePath]).value).0.value;
      var remote := svc.upload(c).value;
      assert trace[1..] == PollTrace(remote.name, FirstSettled(replies));
      PollCounts(remote.name, FirstSettled(replies));
    }
  }

  // ---------------------------------------------------------------------
  // Extraction

  /** What `extractMetadata` returns, the remote calls it makes, and the file system it leaves. */
  function Extracted(files: map<string, Bytes>, svc: Services, replies: seq<StatusReply>, filePath: string)
    : (Result<Metadata, Error>, seq<Event>, map<string, Bytes>)
    requires Settles(replies)
  {
    var (uploaded, trace, files') := Uploaded(files, svc, replies, filePath);
    match uploaded
    case Failure(e) => (Failure(e), trace, files')
    case Success(remote) =>
      var trace' := trace + [Generate(remote)];
      match svc.generate(remote)
      case None => (Failure(GenerationFailed), trace', files')
      case Some(text) =>
        match svc.parseJson(text)
        case None => (Failure(InvalidJson(text)), trace', files')
        case Some(json) =>
          match ParseMetadata(json)
          case Failure(issue) => (Failure(SchemaValidationFailed(issue)), trace', files')
          case Success(metadata) => (Success(metadata), trace', files')
  }

  /** `extractMetadata`: upload, generate, parse, validate. */
  method ExtractMetadata(fs: FileSystem, svc: Services, replies: seq<StatusReply>, filePath: string)
    returns (r: Result<Metadata, Error>, trace: seq<Event>)
    requires Settles(replies)
    modifies fs
    ensures (r, trace, fs.files) == Extracted(old(fs.files), svc, replies, filePath)
  {
    var uploadedFile;
    uploadedFile, trace := UploadFile(fs, svc, replies, filePath);
    if uploadedFile.Failure? {
      return Failure(uploadedFile.error), trace;
    }
    var response := svc.generate(uploadedFile.value);
    trace := trace + [Generate(uploadedFile.value)];
    if response.None? {
      return Failure(GenerationFailed), trace;
    }
    var parsed := svc.parseJson(response.value);
    if parsed.None? {
      return Failure(InvalidJson(response.value)), trace;
    }
    var metadata := ParseMetadata(parsed.value);
    if metadata.Failure? {
      return Failure(SchemaValidationFailed(metadata.error)), trace;
    }
    return Success(metadata.value), trace;
  }

  /**
    Extracted metadata is exactly what validation makes of the generation
    response for the processed upload, and the generation call comes after it.
  */
  lemma ExtractedMetadataIsValidated(files: map<string, Bytes>, svc: Services, replies: seq<StatusReply>, filePath: string)
    requires Settles(replies)
    ensures var (r, trace, files') := Extracted(files, svc, replies, filePath);
      r.Success? ==>
        var upload := Uploaded(files, svc, replies, filePath);
        && upload.0.Success?
        && replies[FirstSettled(replies)].Reported?
        && replies[FirstSettled(replies)].state != Processing
        && replies[FirstSettled(replies)].state != Failed
        && trace == upload.1 + [Generate(upload.0.value)]
        && svc.generate(upload.0.value).Some?
        && svc.parseJson(svc.generate(upload.0.value).value).Some?
        && ParseMetadata(svc.parseJson(svc.generate(upload.0.value).value).value) == Success(r.value)
        && files' == upload.2
  {
    UploadWaitsForProcessing(files, svc, replies, filePath);
  }
}
